/** Bounds on generation, over whole runs and at the handler that sets the limit. */
module GenerationBounds {
  import opened Sequences
  import opened PagedExecution
  import opened SchedulerState
  import opened SchedulerMemory
  import opened SchedulerInvariants
  import opened SchedulerExecution
  import opened SchedulerTheorems
  import opened SequenceLife

  /** The number of executions of the run that include sequence k. */
  ghost function Executions(e: Engine, s: State, evs: seq<Event>, k: nat): nat
    requires Valid(e, s, evs)
    decreases |evs|
  {
    if evs == [] then 0
    else (if evs[0].Execute? && k in s.seqBatch then 1 else 0) + Executions(e, Next(e, s, evs[0]), evs[1..], k)
  }

  /** Over any run a sequence only grows, by one token per execution that includes it, and never after
      it is finished; its finish reason never changes. */
  lemma {:induction false} RunEvolves(e: Engine, s: State, evs: seq<Event>, k: nat)
    requires Inv(e, s) && Valid(e, s, evs) && KeysDistinct(After(e, s, evs).reqs) && k < |s.mem.seqs|
    ensures k < |After(e, s, evs).mem.seqs|
    ensures Evolves(s.mem.seqs[k], After(e, s, evs).mem.seqs[k])
    ensures |After(e, s, evs).mem.seqs[k].tokens| == |s.mem.seqs[k].tokens| + Executions(e, s, evs, k)
    decreases |evs|
  {
    if evs != [] {
      RequestsGrow(e, s, evs);
      StepKeeps(e, s, evs[0]);
      StepEvolves(e, s, evs[0], k);
      RunEvolves(e, Next(e, s, evs[0]), evs[1..], k);
    }
  }

  /** A sequence with a limit runs at most that many times over its whole life, however often it is
      preempted, and it has stopped once it has used up its limit. */
  lemma GenerationBound(e: Engine, s: State, evs: seq<Event>, k: nat)
    requires Inv(e, s) && Valid(e, s, evs) && KeysDistinct(After(e, s, evs).reqs) && k < |s.mem.seqs|
    requires s.mem.seqs[k] == NewSequence(s.mem.seqs[k].tokens, s.mem.seqs[k].settings)
    requires s.mem.seqs[k].settings.maxTokens > 0
    ensures Executions(e, s, evs, k) <= s.mem.seqs[k].settings.maxTokens
    ensures k < |After(e, s, evs).mem.seqs|
    ensures Executions(e, s, evs, k) == s.mem.seqs[k].settings.maxTokens ==> After(e, s, evs).mem.seqs[k].stopped
  {
    RunEvolves(e, s, evs, k);
    RunKeeps(e, s, evs);
    assert Healthy(After(e, s, evs).mem.seqs[k], e.blockSize);
  }

  // ----- the limit set by the request handlers

  const UINT32_RANGE := 0x1_0000_0000
  const DEFAULT_MAX_TOKENS := 128

  datatype Asked = Unset | Tokens(n: nat)

  /** The room the prompt leaves in the context, truncated to 32 bits. */
  function Room(contextLen: nat, promptLen: nat): nat
    requires promptLen <= contextLen
  {
    (contextLen - promptLen) % UINT32_RANGE
  }

  /** max_tokens as the completion handler derives it: the room, capped by what the client asked for or by the default. */
  function HandlerLimit(contextLen: nat, promptLen: nat, asked: Asked): nat
    requires promptLen <= contextLen
  {
    var cap := if asked.Tokens? then asked.n else DEFAULT_MAX_TOKENS;
    if cap < Room(contextLen, promptLen) then cap else Room(contextLen, promptLen)
  }

  lemma LimitFits(contextLen: nat, promptLen: nat, asked: Asked)
    requires promptLen <= contextLen
    ensures promptLen + HandlerLimit(contextLen, promptLen, asked) <= contextLen
    ensures HandlerLimit(contextLen, promptLen, asked) > 0 <==> Room(contextLen, promptLen) > 0 && asked != Tokens(0)
    ensures contextLen - promptLen < 0x1_0000_0000 ==> Room(contextLen, promptLen) == contextLen - promptLen
    ensures Room(contextLen, promptLen) < 0x1_0000_0000
    ensures asked.Tokens? ==> HandlerLimit(contextLen, promptLen, asked) <= asked.n
    ensures asked.Unset? ==> HandlerLimit(contextLen, promptLen, asked) <= 128
    ensures HandlerLimit(contextLen, promptLen, asked) < Room(contextLen, promptLen) ==>
              HandlerLimit(contextLen, promptLen, asked) == if asked.Tokens? then asked.n else 128
  {
  }

  /** In every run of the engine, across any preemptions, a sequence that the handler set up with room left and a limit
      other than zero stays within the context length. */
  lemma ContextKeptInRuns(e: Engine, s: State, evs: seq<Event>, k: nat, contextLen: nat, asked: Asked)
    requires Inv(e, s) && Valid(e, s, evs) && KeysDistinct(After(e, s, evs).reqs) && k < |s.mem.seqs|
    requires s.mem.seqs[k] == NewSequence(s.mem.seqs[k].tokens, s.mem.seqs[k].settings)
    requires |s.mem.seqs[k].tokens| <= contextLen
    requires s.mem.seqs[k].settings.maxTokens == HandlerLimit(contextLen, |s.mem.seqs[k].tokens|, asked)
    requires Room(contextLen, |s.mem.seqs[k].tokens|) > 0 && asked != Tokens(0)
    ensures k < |After(e, s, evs).mem.seqs| && |After(e, s, evs).mem.seqs[k].tokens| <= contextLen
  {
    LimitFits(contextLen, |s.mem.seqs[k].tokens|, asked);
    GenerationBound(e, s, evs, k);
    RunEvolves(e, s, evs, k);
  }

  /** A client that asks for n > 0 tokens is given at most n in every run of the engine, one that does not say at most 128;
      provided the prompt leaves room, and with less room no more than that. */
  lemma ClientBoundInRuns(e: Engine, s: State, evs: seq<Event>, k: nat, contextLen: nat, asked: Asked)
    requires Inv(e, s) && Valid(e, s, evs) && KeysDistinct(After(e, s, evs).reqs) && k < |s.mem.seqs|
    requires s.mem.seqs[k] == NewSequence(s.mem.seqs[k].tokens, s.mem.seqs[k].settings)
    requires |s.mem.seqs[k].tokens| <= contextLen
    requires s.mem.seqs[k].settings.maxTokens == HandlerLimit(contextLen, |s.mem.seqs[k].tokens|, asked)
    requires Room(contextLen, |s.mem.seqs[k].tokens|) > 0 && asked != Tokens(0)
    ensures k < |After(e, s, evs).mem.seqs|
    ensures var generated := |After(e, s, evs).mem.seqs[k].tokens| - |s.mem.seqs[k].tokens|;
            && 0 <= generated <= (if asked.Tokens? then asked.n else 128)
            && generated <= contextLen - |s.mem.seqs[k].tokens|
  {
    LimitFits(contextLen, |s.mem.seqs[k].tokens|, asked);
    GenerationBound(e, s, evs, k);
    RunEvolves(e, s, evs, k);
  }

  /** A sequence fed with sampled tokens until it stops. */
  function Fed(t: SeqState, samples: seq<int>): SeqState
    decreases |samples|
  {
    if samples == [] || t.stopped then t else Fed(t.Append(samples[0]).CheckStop(), samples[1..])
  }

  lemma {:induction false} FedWithinBudget(t: SeqState, samples: seq<int>)
    requires WithinBudget(t)
    ensures WithinBudget(Fed(t, samples))
    ensures Fed(t, samples).promptLen == t.promptLen && Fed(t, samples).settings == t.settings
    decreases |samples|
  {
    if samples != [] && !t.stopped { FedWithinBudget(t.Append(samples[0]).CheckStop(), samples[1..]); }
  }

  lemma {:induction false} FedWithoutLimit(t: SeqState, samples: seq<int>)
    requires t.settings.maxTokens == 0 && !t.stopped
    requires forall x <- samples :: x != t.settings.eosTokenId
    ensures |Fed(t, samples).tokens| == |t.tokens| + |samples|
    decreases |samples|
  {
    if samples != [] {
      assert forall x <- samples[1..] :: x in samples;
      FedWithoutLimit(t.Append(samples[0]).CheckStop(), samples[1..]);
    }
  }

  /** A sequence set up by the handler stays within the context length whatever is sampled, exactly when the truncated
      room is not zero and the client did not ask for zero tokens: a limit of zero switches the check off. */
  lemma ContextKept(contextLen: nat, prompt: seq<int>, asked: Asked, eos: int, ignoreEos: bool, sampling: int)
    requires |prompt| <= contextLen
    ensures var t := NewSequence(prompt, Settings(HandlerLimit(contextLen, |prompt|, asked), eos, ignoreEos, sampling));
            (Room(contextLen, |prompt|) > 0 && asked != Tokens(0))
            <==> (forall samples :: |Fed(t, samples).tokens| <= contextLen)
  {
    var t := NewSequence(prompt, Settings(HandlerLimit(contextLen, |prompt|, asked), eos, ignoreEos, sampling));
    LimitFits(contextLen, |prompt|, asked);
    if Room(contextLen, |prompt|) > 0 && asked != Tokens(0) {
      forall samples ensures |Fed(t, samples).tokens| <= contextLen {
        FedWithinBudget(t, samples);
      }
    } else {
      var samples := seq(contextLen + 1, _ => eos + 1);
      FedWithoutLimit(t, samples);
      assert |Fed(t, samples).tokens| > contextLen;
    }
  }
}
