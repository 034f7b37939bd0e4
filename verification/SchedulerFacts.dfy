/** The invariant in a form that a proof unfolds only on request, and what each part of the scheduler needs to
    know from it. */
module SchedulerFacts {
  import opened Arith
  import opened Sequences
  import opened BlockMemory
  import opened BatchInputs
  import opened PagedExecution
  import opened SchedulerState
  import opened SchedulerMemory
  import opened SchedulerInvariants
  import opened SchedulerLoop
  import opened SchedulerExecution
  import opened SchedulerTheorems
  import opened SchedulerGuarantees
  import opened Cancellation

  ghost predicate GoodAt(e: Engine, s: State, w: nat) { Inv(e, s) && Live(s) }

  /** The invariant, and a batch that no cancellation has hit; sealed as SchedulerTheorems.Steps is. */
  ghost predicate Good(e: Engine, s: State) { forall w :: GoodAt(e, s, w) }

  lemma Open(e: Engine, s: State)
    requires Good(e, s)
    ensures Inv(e, s) && Live(s)
  {
    assert GoodAt(e, s, 0);
  }

  /** One step that is not a cancellation of a batched sequence. */
  lemma GoodStep(e: Engine, s: State, ev: Event, t: State)
    requires Good(e, s) && KeysDistinct(s.reqs) && Enabled(e, s, ev) && !HitsBatch(s, ev) && t == Next(e, s, ev)
    ensures Good(e, t) && Leads(e, s, [ev], t)
  {
    Open(e, s);
    StepKeeps(e, s, ev);
    LiveKept(e, s, ev);
    LeadsOne(e, s, ev, t);
  }

  /** What a build needs to know about the state it starts from. */
  lemma BeginFacts(e: Engine, s: State)
    requires Good(e, s) && KeysDistinct(s.reqs) && s.phase == Idle
    ensures Named(s) && s.preemptable == []
    ensures Conserved(s.mem.free, s.mem.seqs, e.numBlocks)
    ensures Good(e, DoBegin(s)) && Leads(e, s, [Begin], DoBegin(s))
  {
    Open(e, s);
    InvNamed(e, s);
    GoodStep(e, s, Begin, DoBegin(s));
  }

  /** ... a round of the loop, */
  lemma RoundFacts(e: Engine, s: State, c: nat)
    requires Good(e, s) && KeysDistinct(s.reqs) && s.phase == Building && IsTop(s.reqs, s.heap, c)
    ensures e.blockSize > 0 && Named(s)
    ensures var a := AllocateAll(s.mem, s.reqs[c].seqs, e.blockSize);
            Conserved(a.m.free, a.m.seqs, e.numBlocks)
    ensures Good(e, DoIterate(e, s, c)) && Leads(e, s, [Iterate(c)], DoIterate(e, s, c))
    ensures DoIterate(e, s, c).phase == Building ==>
              |DoIterate(e, s, c).heap| + |DoIterate(e, s, c).preemptable| < |s.heap| + |s.preemptable|
  {
    Open(e, s);
    InvNamed(e, s);
    AllocateAllSafe(e, s.mem, s.reqs[c].seqs);
    GoodStep(e, s, Iterate(c), DoIterate(e, s, c));
    if DoIterate(e, s, c).phase == Building { RoundsRunOut(e, s, c); }
  }

  /** ... the choice of the next candidate, */
  lemma HeapFacts(e: Engine, s: State)
    requires Good(e, s) && s.heap != {}
    ensures exists c :: c in s.heap && IsTop(s.reqs, s.heap, c)
  {
    Open(e, s);
    InRange(|s.reqs|, s.intake, s.heap, s.batch, s.done);
    TopExists(s.reqs, s.heap);
  }

  /** ... the end of the build, */
  lemma EndFacts(e: Engine, s: State, c: nat)
    requires Good(e, s) && KeysDistinct(s.reqs) && (s.phase == Built || (s.phase == Building && s.heap == {}))
    requires s.seqBatch == [] && s.heap != {} ==> IsTop(s.reqs, s.heap, c)
    ensures Named(s) && Conserved(s.mem.free, s.mem.seqs, e.numBlocks)
    ensures Good(e, DoEnd(s, c)) && Leads(e, s, [End(c)], DoEnd(s, c)) && s.preemptable == []
    ensures s.seqBatch != [] ==> ServedInOrder(s.reqs, s.batch, s.heap)
  {
    Open(e, s);
    InvNamed(e, s);
    BuiltInOrder(e, s);
    GoodStep(e, s, End(c), DoEnd(s, c));
  }

  /** ... an arrival, */
  lemma ArriveFacts(e: Engine, s: State, prompts: seq<Prompt>, priority: int, created: int)
    requires Good(e, s) && KeysDistinct(s.reqs) && forall p <- prompts :: p.tokens != []
    ensures Good(e, DoArrive(e, s, prompts, priority, created))
  {
    Open(e, s);
    InvNamed(e, s);
    GoodStep(e, s, Arrive(prompts, priority, created), DoArrive(e, s, prompts, priority, created));
  }

  ghost predicate KeptAt(e: Engine, s: State, w: nat) { Inv(e, s) }

  /** The invariant alone, sealed. */
  ghost predicate Kept(e: Engine, s: State) { forall w :: KeptAt(e, s, w) }

  lemma GoodKept(e: Engine, s: State)
    requires Good(e, s)
    ensures Kept(e, s)
  {
    Open(e, s);
  }

  /** ... a cancellation at any time, */
  lemma CancelFacts(e: Engine, s: State, k: nat)
    requires Kept(e, s) && k < |s.mem.seqs|
    ensures Enabled(e, s, Cancel(k)) && Kept(e, Next(e, s, Cancel(k)))
    ensures Good(e, s) && !HitsBatch(s, Cancel(k)) ==> Good(e, Next(e, s, Cancel(k)))
  {
    assert KeptAt(e, s, 0);
    InvNamed(e, s);
    CancelKeeps(e, s, k);
    if Good(e, s) && !HitsBatch(s, Cancel(k)) {
      Open(e, s);
      LiveKept(e, s, Cancel(k));
    }
  }

  ghost predicate ExecutesAt(e: Engine, s: State, sample: Sampler, t: State, w: nat) {
    Named(s) && Passes(e, s) && t == DoExecute(e, s, sample)
  }

  /** Executing s with this sampler gives t; sealed likewise. */
  ghost predicate Executes(e: Engine, s: State, sample: Sampler, t: State) {
    forall w :: ExecutesAt(e, s, sample, t, w)
  }

  /** ... and an execution. */
  lemma ExecuteFacts(e: Engine, s: State, sample: Sampler) returns (t: State)
    requires Good(e, s) && KeysDistinct(s.reqs) && s.phase == Ready
    ensures Executes(e, s, sample, t) && Good(e, t) && Leads(e, s, [Execute(sample)], t)
    ensures t.phase == Idle && t.reqs == s.reqs
  {
    Open(e, s);
    ChecksPass(e, s);
    t := DoExecute(e, s, sample);
    GoodStep(e, s, Execute(sample), t);
  }

  // ----- what a build and a step are

  /** The events of build_sequence_batch: the recycling, the rounds of the loop, and the end. */
  predicate IsBuild(run: seq<Event>) {
    && |run| >= 2 && run[0].Begin? && run[|run| - 1].End?
    && (forall i :: 0 < i < |run| - 1 ==> run[i].Iterate?)
  }

  /** Builds from s to t, one after the other as long as they leave no batch; marks[i] is the state before build i. */
  ghost predicate AreBuilds(e: Engine, s: State, t: State, marks: seq<State>, runs: seq<seq<Event>>) {
    && 1 <= |runs| && |marks| == |runs| + 1 && marks[0] == s && marks[|runs|] == t
    && (forall i :: 0 <= i < |runs| ==> IsBuild(runs[i]) && Leads(e, marks[i], runs[i], marks[i + 1]))
    && (forall i :: 0 < i < |runs| ==> marks[i].seqBatch == [])
  }

  lemma OneBuild(e: Engine, s: State, run: seq<Event>, t: State)
    requires IsBuild(run) && Leads(e, s, run, t)
    ensures AreBuilds(e, s, t, [s, t], [run])
  {
  }

  lemma MoreBuilds(e: Engine, s: State, t: State, marks: seq<State>, runs: seq<seq<Event>>, run: seq<Event>, u: State)
    requires AreBuilds(e, s, t, marks, runs) && t.seqBatch == [] && IsBuild(run) && Leads(e, t, run, u)
    ensures AreBuilds(e, s, u, marks + [u], runs + [run])
  {
  }

  /** A step from s to t: at most `builds` builds after the first, and the execution of the batch, with this sampler, if and
      only if the last build has left one. */
  ghost predicate IsStep(e: Engine, s: State, t: State, sample: Sampler, builds: nat, marks: seq<State>,
                         runs: seq<seq<Event>>)
  {
    && |marks| == |runs| + 1 && |runs| <= builds + 1
    && var built := marks[|runs|];
       && AreBuilds(e, s, built, marks, runs)
       && if built.seqBatch == [] then |runs| == builds + 1 && t == built
          else Executes(e, built, sample, t) && Leads(e, built, [Execute(sample)], t)
  }

  lemma InitialFacts(e: Engine, cache: seq<KV>)
    requires e.blockSize > 0 && |cache| == e.numBlocks * e.blockSize
    ensures Good(e, Initial(e, cache))
  {
    InitialInv(e, cache);
  }

  /** A non-empty heap has a top. */
  lemma {:induction false} TopExists(reqs: seq<Request>, heap: set<nat>)
    requires heap != {} && forall r <- heap :: r < |reqs|
    ensures exists c :: c in heap && IsTop(reqs, heap, c)
    decreases |heap|
  {
    var r :| r in heap;
    var rest := heap - {r};
    if rest == {} {
      assert heap == {r};
      assert IsTop(reqs, heap, r);
    } else {
      TopExists(reqs, rest);
      var c :| c in rest && IsTop(reqs, rest, c);
      if Before(reqs[r], reqs[c]) {
        assert IsTop(reqs, heap, r);
      } else {
        assert IsTop(reqs, heap, c);
      }
    }
  }

  /** The recursion of RecycleBatch, one request further from the end. */
  lemma RecycleNext(reqs: seq<Request>, m: Memory, heap: set<nat>, done: seq<nat>, batch: seq<nat>, i: nat)
    requires KnownAll(m.seqs, reqs) && i < |batch| && forall j :: 0 <= j < |batch| ==> batch[j] < |reqs|
    ensures RecycleBatch(reqs, m, heap, done, batch[i..])
         == RecycleOne(reqs, RecycleBatch(reqs, m, heap, done, batch[i + 1..]), batch[i])
  {
    assert batch[i..][0] == batch[i] && batch[i..][1..] == batch[i + 1..];
  }
}
