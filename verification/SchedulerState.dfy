/** The continuous-batching scheduler as a state machine. One step of the machine is one arrival, one
    cancellation, one round of the scheduling loop, or one execution of a batch
    (src/scheduler/continuous_batching_scheduler.cpp). Sequences live in a store and are named by their
    index, as the source names them by pointer; requests are named by their order of arrival. */
module SchedulerState {
  import opened Arith
  import opened Sequences
  import opened BlockMemory
  import opened BatchInputs
  import opened BatchFaithful
  import opened PagedExecution

  datatype Request = Request(seqs: seq<nat>, priority: int, created: int)

  /** RequestPtrLess: smaller priority value first, then the earlier second. */
  predicate Before(a: Request, b: Request) {
    if a.priority == b.priority then a.created < b.created else a.priority < b.priority
  }

  /** What is fixed for a whole run. */
  datatype Engine = Engine(f: Network, blockSize: nat, numBlocks: nat, capacity: nat)

  datatype Memory = Memory(free: seq<int>, seqs: seq<SeqState>)

  datatype Phase = Idle | Building | Built | Ready

  datatype State = State(
    reqs: seq<Request>,
    mem: Memory,
    cache: seq<KV>,
    intake: seq<nat>,
    heap: set<nat>,
    batch: seq<nat>,
    seqBatch: seq<nat>,
    preemptable: seq<nat>,
    done: seq<nat>,
    phase: Phase)

  // ----- operations on the store, one request at a time

  predicate Known(seqs: seq<SeqState>, ids: seq<nat>) {
    forall i :: 0 <= i < |ids| ==> ids[i] < |seqs|
  }

  /** Request::is_finished. */
  predicate RequestFinished(seqs: seq<SeqState>, ids: seq<nat>)
    requires Known(seqs, ids)
  {
    forall i :: 0 <= i < |ids| ==> seqs[ids[i]].Finished()
  }

  /** release_slots_for_request. */
  function ReleaseAll(m: Memory, ids: seq<nat>): (m': Memory)
    requires Known(m.seqs, ids)
    ensures |m'.seqs| == |m.seqs|
  {
    if ids == [] then m
    else
      var n := |ids| - 1;
      var p := ReleaseAll(m, ids[..n]);
      var k := ids[n];
      Memory(p.free + p.seqs[k].blocks, p.seqs[k := p.seqs[k].Release()])
  }

  datatype Attempt = Attempt(m: Memory, granted: seq<nat>, all: bool)

  /** The inner loop of build_sequence_batch: ask for slots sequence by sequence, skipping finished ones. */
  function AllocateAll(m: Memory, ids: seq<nat>, blockSize: nat): (a: Attempt)
    requires Known(m.seqs, ids) && blockSize > 0
    ensures |a.m.seqs| == |m.seqs|
  {
    if ids == [] then Attempt(m, [], true)
    else
      var n := |ids| - 1;
      var a := AllocateAll(m, ids[..n], blockSize);
      var k := ids[n];
      if a.m.seqs[k].Finished() then a
      else
        var g := AllocateSeq(a.m.free, a.m.seqs[k], blockSize);
        if g.ok then Attempt(Memory(g.free, a.m.seqs[k := g.s]), a.granted + [k], a.all)
        else a.(all := false)
  }

  datatype Recycled = Recycled(m: Memory, heap: set<nat>, done: seq<nat>, preemptable: seq<nat>)

  predicate KnownAll(seqs: seq<SeqState>, reqs: seq<Request>) {
    forall r :: 0 <= r < |reqs| ==> Known(seqs, reqs[r].seqs)
  }

  /** The previous batch, visited from its end: finished requests are handed off and release their
      blocks, the others go back to the heap and may be preempted. */
  function RecycleBatch(reqs: seq<Request>, m: Memory, heap: set<nat>, done: seq<nat>, batch: seq<nat>): (x: Recycled)
    requires KnownAll(m.seqs, reqs) && forall i :: 0 <= i < |batch| ==> batch[i] < |reqs|
    ensures |x.m.seqs| == |m.seqs|
  {
    if batch == [] then Recycled(m, heap, done, [])
    else
      RecycleOne(reqs, RecycleBatch(reqs, m, heap, done, batch[1..]), batch[0])
  }

  function RecycleOne(reqs: seq<Request>, x: Recycled, r: nat): Recycled
    requires KnownAll(x.m.seqs, reqs) && r < |reqs|
  {
    if RequestFinished(x.m.seqs, reqs[r].seqs) then
      x.(m := ReleaseAll(x.m, reqs[r].seqs), done := x.done + [r])
    else
      x.(preemptable := [r] + x.preemptable, heap := x.heap + {r})
  }

  function Elements(xs: seq<nat>): set<nat> { set x <- xs }

  /** The top of the heap: nothing in it comes before. */
  predicate IsTop(reqs: seq<Request>, heap: set<nat>, c: nat) {
    c in heap && c < |reqs| && forall o <- heap :: o < |reqs| ==> !Before(reqs[o], reqs[c])
  }

  /** Each sequence of the batch gets its token and is checked against its stopping criteria. */
  function AppendAll(seqs: seq<SeqState>, ids: seq<nat>, tokens: seq<int>): (seqs': seq<SeqState>)
    requires |ids| == |tokens| && Known(seqs, ids)
    ensures |seqs'| == |seqs|
  {
    if ids == [] then seqs
    else
      var n := |ids| - 1;
      var p := AppendAll(seqs, ids[..n], tokens[..n]);
      p[ids[n] := p[ids[n]].Append(tokens[n]).CheckStop()]
  }

  // ----- events

  datatype Prompt = Prompt(tokens: seq<int>, settings: Settings)

  /** A sampler: which token is drawn for a row, given its sampling parameters, its last token and what its attention
      sees. */
  type Sampler = (nat, int, int, seq<KV>) -> int

  datatype Event =
    | Arrive(prompts: seq<Prompt>, priority: int, created: int)
    | Cancel(k: nat)
    | Begin
    | Iterate(c: nat)
    | End(c: nat)
    | Execute(sample: Sampler)

  /** All names that occur in the state are in use. */
  predicate Named(s: State) {
    && KnownAll(s.mem.seqs, s.reqs)
    && Known(s.mem.seqs, s.seqBatch)
    && (forall i :: 0 <= i < |s.batch| ==> s.batch[i] < |s.reqs|)
    && (forall i :: 0 <= i < |s.preemptable| ==> s.preemptable[i] < |s.reqs|)
  }

  function Select(seqs: seq<SeqState>, ids: seq<nat>): (batch: seq<SeqState>)
    requires Known(seqs, ids)
    ensures |batch| == |ids|
  {
    seq(|ids|, i requires 0 <= i < |ids| => seqs[ids[i]])
  }

  function BatchOf(s: State): (batch: seq<SeqState>)
    requires Named(s)
    ensures |batch| == |s.seqBatch|
  {
    Select(s.mem.seqs, s.seqBatch)
  }

  /** The checks of prepare_inputs pass, and the pass over the flat batch indexes in range. */
  predicate Passes(e: Engine, s: State)
    requires Named(s)
  {
    && e.blockSize > 0
    && RunnableBatch(BatchOf(s), e.blockSize)
    && var x := Flatten(BatchOf(s), e.blockSize);
       Executable(x, s.cache, e.blockSize) && |x.rows| == |s.seqBatch|
       && (forall i :: 0 <= i < |s.seqBatch| ==> 0 <= x.seqIndices[i] < |x.rows|)
  }

  /** A cancellation may come at any time; one that hits a batched sequence before its batch is executed fails the
      check that no sequence handed to the engine is finished, and the batch cannot be executed. */
  predicate Enabled(e: Engine, s: State, ev: Event) {
    && e.blockSize > 0 && Named(s)
    && match ev
       case Arrive(prompts, _, _) => forall p <- prompts :: p.tokens != []
       case Cancel(k) => k < |s.mem.seqs|
       case Begin => s.phase == Idle
       case Iterate(c) => s.phase == Building && IsTop(s.reqs, s.heap, c)
       case End(c) => (s.phase == Built || (s.phase == Building && s.heap == {}))
                      && (s.seqBatch == [] && s.heap != {} ==> IsTop(s.reqs, s.heap, c))
       case Execute(_) => s.phase == Ready && Passes(e, s)
  }

  function NewSequences(prompts: seq<Prompt>): seq<SeqState> {
    seq(|prompts|, i requires 0 <= i < |prompts| => NewSequence(prompts[i].tokens, prompts[i].settings))
  }

  /** schedule(): refused when the intake queue is full. */
  function DoArrive(e: Engine, s: State, prompts: seq<Prompt>, priority: int, created: int): State {
    if |s.intake| >= e.capacity then s
    else
      var n := |s.mem.seqs|;
      s.(reqs := s.reqs + [Request(seq(|prompts|, i requires 0 <= i < |prompts| => n + i), priority, created)],
         mem := s.mem.(seqs := s.mem.seqs + NewSequences(prompts)),
         intake := s.intake + [|s.reqs|])
  }

  /** build_sequence_batch up to its scheduling loop. */
  function DoBegin(s: State): State
    requires Named(s)
  {
    var x := RecycleBatch(s.reqs, s.mem, s.heap + Elements(s.intake), s.done, s.batch);
    s.(mem := x.m, intake := [], heap := x.heap, done := x.done, preemptable := x.preemptable + s.preemptable,
       batch := [], seqBatch := [], phase := Building)
  }

  function Schedule(s: State, c: nat, granted: seq<nat>): State {
    s.(heap := s.heap - {c}, batch := s.batch + [c], seqBatch := s.seqBatch + granted)
  }

  /** One round of the scheduling loop. */
  function DoIterate(e: Engine, s: State, c: nat): State
    requires e.blockSize > 0 && Named(s) && c < |s.reqs|
  {
    Decide(s, c, AllocateAll(s.mem, s.reqs[c].seqs, e.blockSize))
  }

  /** What a round does with the outcome of its attempt. */
  function Decide(s: State, c: nat, a: Attempt): State
    requires Named(s) && c < |s.reqs| && |a.m.seqs| == |s.mem.seqs|
  {
    var s1 := s.(mem := a.m);
    if a.all then
      // every sequence fits: the request joins the batch and can no longer be preempted
      var s2 := Schedule(s1, c, a.granted);
      if s2.preemptable != [] && s2.preemptable[0] == c then s2.(preemptable := s2.preemptable[1..]) else s2
    else if s.preemptable != [] then
      // preempt the last candidate, unless it is the request being scheduled
      var n := |s.preemptable| - 1;
      var victim := s.preemptable[n];
      var s2 := s1.(preemptable := s.preemptable[..n]);
      if victim != c then s2.(mem := ReleaseAll(a.m, s.reqs[victim].seqs)) else s2
    else
      // nothing left to preempt: schedule what fits, and stop
      (if a.granted != [] then Schedule(s1, c, a.granted) else s1).(phase := Built)
  }

  /** The end of build_sequence_batch: give up on the first request when nothing could be scheduled. */
  function DoEnd(s: State, c: nat): State
    requires Named(s) && (s.seqBatch == [] && s.heap != {} ==> c < |s.reqs|)
  {
    var s1 := s.(phase := if s.seqBatch == [] then Idle else Ready);
    if s.seqBatch == [] && s.heap != {} then
      s1.(heap := s.heap - {c}, mem := ReleaseAll(s.mem, s.reqs[c].seqs), done := s.done + [c])
    else s1
  }

  /** What is drawn for row j. */
  function Sample(f: Network, x: Flat, cache: seq<KV>, blockSize: nat, j: nat, sample: Sampler): int
    requires Executable(x, cache, blockSize) && j < |x.rows|
  {
    sample(j, x.params[j], x.tokens[x.sampleIdx[j]], Context(f, x, cache, blockSize, j))
  }

  /** execute_model and the loop of step over its output. */
  function Samples(e: Engine, s: State, sample: Sampler): (tokens: seq<int>)
    requires Named(s) && Passes(e, s)
    ensures |tokens| == |s.seqBatch|
  {
    var x := Flatten(BatchOf(s), e.blockSize);
    var cache' := Forward(e.f, x, s.cache, e.blockSize);
    StillExecutable(x, s.cache, cache', e.blockSize);
    seq(|s.seqBatch|, i requires 0 <= i < |s.seqBatch| =>
      Sample(e.f, x, cache', e.blockSize, x.seqIndices[i], sample))
  }

  function DoExecute(e: Engine, s: State, sample: Sampler): State
    requires Named(s) && Passes(e, s)
  {
    var x := Flatten(BatchOf(s), e.blockSize);
    s.(cache := Forward(e.f, x, s.cache, e.blockSize),
       mem := s.mem.(seqs := AppendAll(s.mem.seqs, s.seqBatch, Samples(e, s, sample))),
       phase := Idle)
  }

  function Next(e: Engine, s: State, ev: Event): State
    requires Enabled(e, s, ev)
  {
    match ev
    case Arrive(prompts, priority, created) => DoArrive(e, s, prompts, priority, created)
    case Cancel(k) => s.(mem := s.mem.(seqs := s.mem.seqs[k := s.mem.seqs[k].Cancel()]))
    case Begin => DoBegin(s)
    case Iterate(c) => DoIterate(e, s, c)
    case End(c) => DoEnd(s, c)
    case Execute(sample) => DoExecute(e, s, sample)
  }

  function Initial(e: Engine, cache: seq<KV>): State {
    State([], Memory(InitialFree(e.numBlocks), []), cache, [], {}, [], [], [], [], Idle)
  }
}
