/** The scheduler as an object, with the loops of build_sequence_batch and step
    (src/scheduler/continuous_batching_scheduler.cpp). Every method is a run of the state machine. */
module ContinuousBatching {
  import opened Sequences
  import opened BlockMemory
  import opened BatchInputs
  import opened PagedExecution
  import opened SchedulerState
  import opened SchedulerInvariants
  import opened SchedulerTheorems
  import opened SchedulerGuarantees
  import opened SchedulerFacts
  import opened Cancellation
  import opened BlockManagement

  class Scheduler {
    const f: Network
    const capacity: nat
    const manager: BlockManager
    var store: seq<Sequence>
    var reqs: seq<Request>
    var cache: seq<KV>
    var intake: seq<nat>
    var heap: set<nat>
    var batch: seq<nat>
    var seqBatch: seq<nat>
    var preemptable: seq<nat>
    var done: seq<nat>
    ghost var phase: Phase

    ghost predicate Valid()
      reads this`store, manager, manager.allocator
    {
      manager.Valid() && Distinct(store)
    }

    ghost function Eng(): Engine {
      Engine(f, manager.blockSize, manager.allocator.freeBlocks.Length, capacity)
    }

    ghost function Mem(): Memory
      requires Valid()
      reads this`store, manager, manager.allocator, manager.allocator.freeBlocks, set s <- store
    {
      manager.Mem(store)
    }

    ghost function Abs(): State
      requires Valid()
      reads this, manager, manager.allocator, manager.allocator.freeBlocks, set s <- store
    {
      State(reqs, Mem(), cache, intake, heap, batch, seqBatch, preemptable, done, phase)
    }

    /** No block is lost: what the allocator's own checks rely on. */
    ghost predicate Balanced()
      requires Valid()
      reads this`store, manager, manager.allocator, manager.allocator.freeBlocks, set s <- store
    {
      Conserved(Mem().free, Mem().seqs, manager.allocator.freeBlocks.Length)
    }

    constructor (f: Network, numBlocks: nat, blockSize: nat, capacity: nat, cache: seq<KV>)
      requires blockSize > 0 && |cache| == numBlocks * blockSize
      ensures Valid() && Eng() == Engine(f, blockSize, numBlocks, capacity)
      ensures Abs() == Initial(Eng(), cache) && Good(Eng(), Abs())
    {
      this.f, this.capacity, this.cache := f, capacity, cache;
      manager := new BlockManager(numBlocks, blockSize);
      store, reqs, intake, heap, batch, seqBatch, preemptable, done, phase := [], [], [], {}, [], [], [], [], Idle;
      new;
      InitialFacts(Engine(f, blockSize, numBlocks, capacity), cache);
    }

    static method NewStore(prompts: seq<Prompt>) returns (more: seq<Sequence>)
      ensures fresh(set s <- more) && Distinct(more) && Views(more) == NewSequences(prompts)
    {
      more := [];
      for i := 0 to |prompts|
        invariant |more| == i && fresh(set s <- more) && Distinct(more)
        invariant forall j :: 0 <= j < i ==> more[j].View() == NewSequence(prompts[j].tokens, prompts[j].settings)
      {
        var q := new Sequence(prompts[i].tokens, prompts[i].settings);
        assert q !in set s <- more;
        more := more + [q];
      }
    }

    /** schedule(): a full intake queue refuses the request. */
    method Schedule(prompts: seq<Prompt>, priority: int, created: int) returns (ok: bool)
      requires Valid() && Good(Eng(), Abs()) && KeysDistinct(reqs) && forall p <- prompts :: p.tokens != []
      modifies this`store, this`reqs, this`intake
      ensures Valid() && Good(Eng(), Abs()) && ok == (old(|intake|) < capacity)
      ensures Abs() == DoArrive(Eng(), old(Abs()), prompts, priority, created)
    {
      ArriveFacts(Eng(), Abs(), prompts, priority, created);
      if |intake| >= capacity { return false; }
      ghost var views := Views(store);
      var n := |store|;
      var more := NewStore(prompts);
      assert forall i, j :: 0 <= i < |store| && 0 <= j < |more| ==> store[i] != more[j];
      store := store + more;
      assert Views(store) == views + NewSequences(prompts);
      intake := intake + [|reqs|];
      reqs := reqs + [Request(seq(|prompts|, i requires 0 <= i < |prompts| => n + i), priority, created)];
      return true;
    }

    method OnRequestFinish(r: nat)
      requires Valid() && r < |reqs| && Known(Mem().seqs, reqs[r].seqs) && Balanced()
      modifies this`done, manager.allocator, manager.allocator.freeBlocks, set s <- store
      ensures Valid() && Mem() == ReleaseAll(old(Mem()), reqs[r].seqs) && done == old(done) + [r] && Balanced()
    {
      manager.ReleaseSlotsForRequest(store, reqs[r].seqs);
      done := done + [r];
    }

    method DrainIntake()
      modifies this`intake, this`heap
      ensures intake == [] && heap == old(heap) + Elements(old(intake))
    {
      while intake != []
        invariant heap + Elements(intake) == old(heap) + Elements(old(intake))
        decreases |intake|
      {
        assert intake == [intake[0]] + intake[1..];
        heap := heap + {intake[0]};
        intake := intake[1..];
      }
    }

    method IsFinished(ids: seq<nat>) returns (finished: bool)
      requires Known(Views(store), ids)
      ensures finished == RequestFinished(Views(store), ids)
    {
      for i := 0 to |ids|
        invariant forall j :: 0 <= j < i ==> Views(store)[ids[j]].Finished()
      {
        if !store[ids[i]].View().Finished() { return false; }
      }
      return true;
    }

    ghost function Piles(): Recycled
      requires Valid()
      reads this, manager, manager.allocator, manager.allocator.freeBlocks, set s <- store
    {
      Recycled(Mem(), heap, done, preemptable)
    }

    /** One request of the previous batch: hand it off if it is finished, else put it back. */
    method Recycle(r: nat)
      requires Valid() && KnownAll(Mem().seqs, reqs) && Balanced() && r < |reqs|
      modifies this`done, this`heap, this`preemptable, manager.allocator, manager.allocator.freeBlocks, set s <- store
      ensures Valid() && Balanced() && Piles() == RecycleOne(reqs, old(Piles()), r)
    {
      var finished := IsFinished(reqs[r].seqs);
      if finished {
        OnRequestFinish(r);
      } else {
        PutBack(r);
      }
    }

    method PutBack(r: nat)
      requires Valid()
      modifies this`heap, this`preemptable
      ensures Valid() && Mem() == old(Mem())
      ensures preemptable == [r] + old(preemptable) && heap == old(heap) + {r}
    {
      preemptable := [r] + preemptable;
      heap := heap + {r};
    }

    /** The previous batch, from its end. */
    method RecyclePrevious()
      requires Valid() && preemptable == [] && KnownAll(Mem().seqs, reqs) && Balanced()
      requires forall i :: 0 <= i < |batch| ==> batch[i] < |reqs|
      modifies this`done, this`heap, this`preemptable, manager.allocator, manager.allocator.freeBlocks, set s <- store
      ensures Valid() && Piles() == RecycleBatch(reqs, old(Mem()), old(heap), old(done), batch)
    {
      ghost var m0 := Mem();
      var i := |batch|;
      while i > 0
        invariant 0 <= i <= |batch| && Valid() && Balanced()
        invariant Piles() == RecycleBatch(reqs, m0, old(heap), old(done), batch[i..])
      {
        i := i - 1;
        RecycleNext(reqs, m0, old(heap), old(done), batch, i);
        Recycle(batch[i]);
      }
      assert batch[0..] == batch;
    }

    /** set_cancelled on one of the sequences, at any time. */
    method Cancel(k: nat)
      requires Valid() && Kept(Eng(), Abs()) && k < |store|
      modifies store[k]
      ensures Valid() && Kept(Eng(), Abs()) && Enabled(Eng(), old(Abs()), Event.Cancel(k))
      ensures Abs() == Next(Eng(), old(Abs()), Event.Cancel(k))
      ensures old(Good(Eng(), Abs())) && !HitsBatch(old(Abs()), Event.Cancel(k)) ==> Good(Eng(), Abs())
    {
      CancelFacts(Eng(), Abs(), k);
      ghost var views := Views(store);
      store[k].SetCancelled();
      assert Views(store) == views[k := views[k].Cancel()];
    }

    /** The inner loop: ask for slots sequence by sequence, skipping finished ones. */
    method TryAllocate(ids: seq<nat>) returns (granted: seq<nat>, hasEnough: bool)
      requires Valid() && Known(Mem().seqs, ids)
      modifies manager.allocator, set s <- store
      ensures Valid()
      ensures Attempt(Mem(), granted, hasEnough) == AllocateAll(old(Mem()), ids, manager.blockSize)
    {
      granted, hasEnough := [], true;
      for i := 0 to |ids|
        invariant Valid()
        invariant Attempt(Mem(), granted, hasEnough) == AllocateAll(old(Mem()), ids[..i], manager.blockSize)
      {
        ghost var m := Mem();
        var k := ids[i];
        assert ids[..i + 1][..i] == ids[..i];
        if !store[k].View().Finished() {
          var ok := manager.AllocateSlotsForSequence(store[k]);
          ghost var g := AllocateSeq(m.free, m.seqs[k], manager.blockSize);
          assert Mem() == Memory(g.free, m.seqs[k := g.s]);
          if ok {
            granted := granted + [k];
          } else {
            hasEnough := false;
            assert m.seqs[k := m.seqs[k]] == m.seqs;
          }
        }
      }
      assert ids[..|ids|] == ids;
    }

    /** Move a request from the heap to the batch. */
    method Admit(c: nat, granted: seq<nat>)
      requires Valid()
      modifies this`heap, this`batch, this`seqBatch
      ensures Valid() && Mem() == old(Mem())
      ensures heap == old(heap) - {c} && batch == old(batch) + [c] && seqBatch == old(seqBatch) + granted
    {
      heap, batch, seqBatch := heap - {c}, batch + [c], seqBatch + granted;
    }

    /** Take all blocks from a request. */
    method Strip(r: nat)
      requires Valid() && r < |reqs| && Known(Mem().seqs, reqs[r].seqs) && Balanced()
      modifies manager.allocator, manager.allocator.freeBlocks, set s <- store
      ensures Valid() && Mem() == ReleaseAll(old(Mem()), reqs[r].seqs)
    {
      manager.ReleaseSlotsForRequest(store, reqs[r].seqs);
    }

    /** Every sequence got its slots: the candidate joins the batch and leaves the front of the preemptable list. */
    method ScheduleAll(c: nat, granted: seq<nat>)
      requires Valid() && c < |reqs| && Named(Abs())
      modifies this`heap, this`batch, this`seqBatch, this`preemptable
      ensures Valid() && Abs() == Decide(old(Abs()), c, Attempt(old(Mem()), granted, true))
    {
      Admit(c, granted);
      if preemptable != [] && preemptable[0] == c { preemptable := preemptable[1..]; }
    }

    /** Some sequence got no slots: take the blocks of the last preemptable request, unless it is the candidate. */
    method PreemptLast(c: nat, granted: seq<nat>)
      requires Valid() && c < |reqs| && Named(Abs()) && Balanced() && preemptable != []
      modifies this`preemptable, manager.allocator, manager.allocator.freeBlocks, set s <- store
      ensures Valid() && Abs() == Decide(old(Abs()), c, Attempt(old(Mem()), granted, false))
    {
      ghost var m := Mem();
      var victim := preemptable[|preemptable| - 1];
      if victim != c { Strip(victim); }
      assert Mem() == if victim != c then ReleaseAll(m, reqs[victim].seqs) else m;
      DropLast();
    }

    method DropLast()
      requires Valid() && preemptable != []
      modifies this`preemptable
      ensures Valid() && Mem() == old(Mem()) && preemptable == old(preemptable)[..|old(preemptable)| - 1]
    {
      preemptable := preemptable[..|preemptable| - 1];
    }

    /** The decision of a round, once the attempt has been made. */
    method Conclude(c: nat, granted: seq<nat>, hasEnough: bool) returns (stop: bool)
      requires Valid() && phase == Building && c < |reqs| && Named(Abs()) && Balanced()
      modifies this`heap, this`batch, this`seqBatch, this`preemptable, this`phase
      modifies manager.allocator, manager.allocator.freeBlocks, set s <- store
      ensures Valid() && Abs() == Decide(old(Abs()), c, Attempt(old(Mem()), granted, hasEnough))
      ensures phase == if stop then Built else Building
    {
      stop := false;
      if hasEnough {
        ScheduleAll(c, granted);
      } else if preemptable != [] {
        PreemptLast(c, granted);
      } else {
        if granted != [] { Admit(c, granted); }
        phase := Built;
        stop := true;
      }
    }

    /** One round of the scheduling loop. */
    method Round(c: nat) returns (stop: bool)
      requires Valid() && phase == Building && c < |reqs| && Named(Abs())
      requires var a := AllocateAll(Mem(), reqs[c].seqs, manager.blockSize);
               Conserved(a.m.free, a.m.seqs, manager.allocator.freeBlocks.Length)
      modifies this`heap, this`batch, this`seqBatch, this`preemptable, this`phase
      modifies manager.allocator, manager.allocator.freeBlocks, set s <- store
      ensures Valid() && Abs() == DoIterate(Eng(), old(Abs()), c)
      ensures phase == if stop then Built else Building
    {
      ghost var s := Abs();
      var granted, hasEnough := TryAllocate(reqs[c].seqs);
      assert Abs() == s.(mem := Mem());
      stop := Conclude(c, granted, hasEnough);
    }

    /** The end of build_sequence_batch: when nothing could be scheduled, drop the first request. */
    method GiveUp(c: nat)
      requires Valid() && Named(Abs()) && Balanced()
      requires seqBatch == [] && heap != {} ==> c < |reqs|
      modifies this`heap, this`done, this`phase, manager.allocator, manager.allocator.freeBlocks, set s <- store
      ensures Valid() && Abs() == DoEnd(old(Abs()), c)
    {
      ghost var m := Mem();
      if seqBatch == [] && heap != {} { Drop(c); }
      assert Mem() == if seqBatch == [] && old(heap) != {} then ReleaseAll(m, reqs[c].seqs) else m;
      EndPhase();
    }

    method EndPhase()
      requires Valid()
      modifies this`phase
      ensures Valid() && Mem() == old(Mem()) && phase == if seqBatch == [] then Idle else Ready
    {
      phase := if seqBatch == [] then Idle else Ready;
    }

    /** Hand off a request that waits in the heap. */
    method Drop(c: nat)
      requires Valid() && Named(Abs()) && Balanced() && c < |reqs|
      modifies this`heap, this`done, manager.allocator, manager.allocator.freeBlocks, set s <- store
      ensures Valid() && Mem() == ReleaseAll(old(Mem()), reqs[c].seqs)
      ensures heap == old(heap) - {c} && done == old(done) + [c]
    {
      OnRequestFinish(c);
      heap := heap - {c};
    }

    method ClearBatch()
      requires Valid()
      modifies this`batch, this`seqBatch, this`phase
      ensures Valid() && Piles() == old(Piles()) && batch == [] && seqBatch == [] && phase == Building
    {
      seqBatch, batch, phase := [], [], Building;
    }

    /** The first part of build_sequence_batch. */
    method BeginBuild()
      requires Valid() && Named(Abs()) && Balanced() && preemptable == []
      modifies this`intake, this`done, this`heap, this`preemptable, this`batch, this`seqBatch, this`phase
      modifies manager.allocator, manager.allocator.freeBlocks, set s <- store
      ensures Valid() && Abs() == DoBegin(old(Abs()))
    {
      DrainIntake();
      RecyclePrevious();
      assert preemptable + [] == preemptable;
      ClearBatch();
    }

    /** The scheduling loop: rounds until nothing is left to schedule or nothing more fits. */
    method RunRounds() returns (ghost rounds: seq<Event>)
      requires Valid() && Good(Eng(), Abs()) && KeysDistinct(reqs) && phase == Building
      modifies this`heap, this`batch, this`seqBatch, this`preemptable, this`phase
      modifies manager.allocator, manager.allocator.freeBlocks, set s <- store
      ensures Valid() && Good(Eng(), Abs()) && Leads(Eng(), old(Abs()), rounds, Abs())
      ensures forall i :: 0 <= i < |rounds| ==> rounds[i].Iterate?
      ensures phase == Built || (phase == Building && heap == {})
    {
      ghost var e, s := Eng(), Abs();
      LeadsNowhere(e, s);
      rounds := [];
      var stop := false;
      while heap != {} && !stop
        invariant Valid() && Good(e, Abs()) && Leads(e, s, rounds, Abs())
        invariant forall i :: 0 <= i < |rounds| ==> rounds[i].Iterate?
        invariant phase == if stop then Built else Building
        decreases !stop, |heap| + |preemptable|
      {
        ghost var t := Abs();
        HeapFacts(e, t);
        var c: nat :| c in heap && IsTop(reqs, heap, c);
        RoundFacts(e, t, c);
        stop := Round(c);
        LeadsMore(e, s, rounds, t, [Iterate(c)], Abs());
        rounds := rounds + [Iterate(c)];
      }
    }

    /** The end of the build, with the top of the heap if it is needed. */
    method FinishBuild() returns (ghost end: Event)
      requires Valid() && Good(Eng(), Abs()) && KeysDistinct(reqs)
      requires phase == Built || (phase == Building && heap == {})
      modifies this`heap, this`done, this`phase, manager.allocator, manager.allocator.freeBlocks, set s <- store
      ensures Valid() && Good(Eng(), Abs()) && end.End? && Leads(Eng(), old(Abs()), [end], Abs())
      ensures preemptable == [] && phase == (if seqBatch == [] then Idle else Ready)
      ensures seqBatch != [] ==> ServedInOrder(reqs, batch, heap)
    {
      ghost var t := Abs();
      var c: nat := 0;
      if seqBatch == [] && heap != {} {
        HeapFacts(Eng(), t);
        c :| c in heap && IsTop(reqs, heap, c);
      }
      EndFacts(Eng(), t, c);
      GiveUp(c);
      end := End(c);
    }

    /** build_sequence_batch: one build, which ends with a batch to execute or without one. */
    method BuildSequenceBatch() returns (ghost run: seq<Event>)
      requires Valid() && Good(Eng(), Abs()) && KeysDistinct(reqs) && phase == Idle
      modifies this`intake, this`done, this`heap, this`preemptable, this`batch, this`seqBatch, this`phase
      modifies manager.allocator, manager.allocator.freeBlocks, set s <- store
      ensures Valid() && Good(Eng(), Abs()) && IsBuild(run) && Leads(Eng(), old(Abs()), run, Abs())
      ensures preemptable == [] && phase == (if seqBatch == [] then Idle else Ready)
      ensures seqBatch != [] ==> ServedInOrder(reqs, batch, heap)
    {
      ghost var e, s := Eng(), Abs();
      BeginFacts(e, s);
      BeginBuild();
      ghost var t := Abs();
      ghost var rounds := RunRounds();
      LeadsMore(e, s, [Begin], t, rounds, Abs());
      ghost var u := Abs();
      ghost var end := FinishBuild();
      LeadsMore(e, s, [Begin] + rounds, u, [end], Abs());
      run := [Begin] + rounds + [end];
    }

    /** The samples of a flat batch, routed back to the order of the batch. */
    method Route(sample: Sampler, x: Flat, cache': seq<KV>, n: nat) returns (tokens: seq<int>)
      requires Executable(x, cache', manager.blockSize) && n <= |x.seqIndices|
      requires forall i :: 0 <= i < n ==> 0 <= x.seqIndices[i] < |x.rows|
      ensures |tokens| == n
      ensures forall i :: 0 <= i < n ==>
                tokens[i] == Sample(f, x, cache', manager.blockSize, x.seqIndices[i], sample)
    {
      tokens := [];
      for i := 0 to n
        invariant |tokens| == i
        invariant forall j :: 0 <= j < i ==>
                    tokens[j] == Sample(f, x, cache', manager.blockSize, x.seqIndices[j], sample)
      {
        tokens := tokens + [Sample(f, x, cache', manager.blockSize, x.seqIndices[i], sample)];
      }
    }

    method GatherBatch() returns (views: seq<SeqState>)
      requires Known(Views(store), seqBatch)
      ensures views == Select(Views(store), seqBatch)
    {
      views := [];
      for i := 0 to |seqBatch|
        invariant views == Select(Views(store), seqBatch)[..i]
      {
        views := views + [store[seqBatch[i]].View()];
      }
    }

    /** execute_model on the gathered batch: flatten it, run the pass, and route the samples back. */
    method RunModel(sample: Sampler, views: seq<SeqState>) returns (tokens: seq<int>, cache': seq<KV>)
      requires manager.blockSize > 0 && RunnableBatch(views, manager.blockSize)
      requires var x := Flatten(views, manager.blockSize);
               Executable(x, cache, manager.blockSize) && |views| <= |x.seqIndices|
               && forall i :: 0 <= i < |views| ==> 0 <= x.seqIndices[i] < |x.rows|
      ensures var x := Flatten(views, manager.blockSize);
              && cache' == Forward(f, x, cache, manager.blockSize) && Executable(x, cache', manager.blockSize)
              && |tokens| == |views|
              && forall i :: 0 <= i < |views| ==>
                   tokens[i] == Sample(f, x, cache', manager.blockSize, x.seqIndices[i], sample)
    {
      var x := PrepareInputs(views, manager.blockSize);
      cache' := Forward(f, x, cache, manager.blockSize);
      StillExecutable(x, cache, cache', manager.blockSize);
      tokens := Route(sample, x, cache', |views|);
    }

    /** The execution of the batch, up to handing out the tokens. */
    method ExecuteModel(sample: Sampler, ghost t: State) returns (tokens: seq<int>)
      requires Valid() && Executes(Eng(), Abs(), sample, t)
      modifies this`cache
      ensures Valid() && cache == t.cache && |tokens| == |seqBatch| && Known(Mem().seqs, seqBatch)
      ensures t == old(Abs()).(cache := t.cache, phase := Idle,
                               mem := Mem().(seqs := AppendAll(Mem().seqs, seqBatch, tokens)))
    {
      ghost var s := Abs();
      assert ExecutesAt(Eng(), s, sample, t, 0);
      var views := GatherBatch();
      assert views == BatchOf(s);
      var cache';
      tokens, cache' := RunModel(sample, views);
      assert tokens == Samples(Eng(), s, sample);
      cache := cache';
    }

    method AppendToken(k: nat, token: int)
      requires Valid() && k < |store|
      modifies store[k]
      ensures Valid()
      ensures Mem() == old(Mem()).(seqs := old(Mem()).seqs[k := old(Mem()).seqs[k].Append(token).CheckStop()])
    {
      ghost var views := Views(store);
      store[k].AppendNewTokenId(token);
      var _ := store[k].CheckStoppingCriteria();
      assert Views(store) == views[k := views[k].Append(token).CheckStop()];
    }

    /** The loop of step over the sampled tokens. */
    method AppendTokens(tokens: seq<int>)
      requires Valid() && |tokens| == |seqBatch| && Known(Mem().seqs, seqBatch)
      modifies set s <- store
      ensures Valid() && Mem() == old(Mem()).(seqs := AppendAll(old(Mem()).seqs, seqBatch, tokens))
    {
      ghost var m := Mem();
      for i := 0 to |seqBatch|
        invariant Valid() && Mem() == m.(seqs := AppendAll(m.seqs, seqBatch[..i], tokens[..i]))
      {
        assert seqBatch[..i + 1][..i] == seqBatch[..i] && tokens[..i + 1][..i] == tokens[..i];
        AppendToken(seqBatch[i], tokens[i]);
      }
      assert seqBatch[..|seqBatch|] == seqBatch && tokens[..|seqBatch|] == tokens;
    }

    /** step: build until there is a batch or the time is up, execute it, and give each sequence its token. The clock is
        the number of builds after the first that fit before the deadline. */
    method Step(sample: Sampler, builds: nat) returns (ghost marks: seq<State>, ghost runs: seq<seq<Event>>)
      requires Valid() && Good(Eng(), Abs()) && KeysDistinct(reqs) && phase == Idle
      modifies this, manager.allocator, manager.allocator.freeBlocks, set s <- store
      ensures Valid() && Good(Eng(), Abs()) && phase == Idle
      ensures IsStep(Eng(), old(Abs()), Abs(), sample, builds, marks, runs)
    {
      marks, runs := BuildUntilBatch(builds);
      if seqBatch != [] {
        ghost var u := ExecuteFacts(Eng(), Abs(), sample);
        RunBatch(sample, u);
      }
    }

    /** The waiting loop of step: build until there is a batch or the time is up. */
    method BuildUntilBatch(builds: nat) returns (ghost marks: seq<State>, ghost runs: seq<seq<Event>>)
      requires Valid() && Good(Eng(), Abs()) && KeysDistinct(reqs) && phase == Idle
      modifies this`intake, this`done, this`heap, this`preemptable, this`batch, this`seqBatch, this`phase
      modifies manager.allocator, manager.allocator.freeBlocks, set s <- store
      ensures Valid() && Good(Eng(), Abs()) && phase == (if seqBatch == [] then Idle else Ready)
      ensures AreBuilds(Eng(), old(Abs()), Abs(), marks, runs)
      ensures |runs| <= builds + 1 && (seqBatch == [] ==> |runs| == builds + 1)
    {
      ghost var e, s := Eng(), Abs();
      ghost var run := BuildSequenceBatch();
      OneBuild(e, s, run, Abs());
      marks, runs := [s, Abs()], [run];
      var built := 1;
      while seqBatch == [] && built <= builds
        invariant Valid() && Good(e, Abs()) && AreBuilds(e, s, Abs(), marks, runs)
        invariant phase == (if seqBatch == [] then Idle else Ready) && |runs| == built <= builds + 1
      {
        ghost var t := Abs();
        run := BuildSequenceBatch();
        MoreBuilds(e, s, t, marks, runs, run, Abs());
        marks, runs := marks + [Abs()], runs + [run];
        built := built + 1;
      }
    }

    /** The part of step that executes the batch and hands out its tokens. */
    method RunBatch(sample: Sampler, ghost u: State)
      requires Valid() && Executes(Eng(), Abs(), sample, u)
      modifies this`cache, this`phase, set s <- store
      ensures Valid() && Abs() == u
    {
      var tokens := ExecuteModel(sample, u);
      AppendTokens(tokens);
      phase := Idle;
    }
  }
}
