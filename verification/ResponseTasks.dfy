/** The tasks the scheduler hands to its single-threaded response executor, and why the raw sequence pointers they
    capture stay valid (src/scheduler/continuous_batching_scheduler.cpp). */
module ResponseTasks {
  import opened Sequences
  import opened PagedExecution
  import opened SchedulerState
  import opened SchedulerMemory
  import opened SequenceLife
  import opened SchedulerInvariants
  import opened SchedulerTheorems
  import opened SchedulerGuarantees
  import Executors

  /** Stream reads sequence k, up to its token `end`, through a borrowed pointer; Release owns request r and frees it when it
      returns. */
  datatype Response = Stream(k: nat, end: nat, reason: FinishReason) | Release(r: nat)

  /** Which sequences are streamed, how many new tokens make a flush, and the output offset of sequence k as it is read
      with n more events to come. */
  datatype Policy = Policy(streaming: nat -> bool, buffer: nat, offset: (nat, nat) -> nat)

  /** on_sequence_stream: flush a sequence that is finished, or that has enough new tokens. */
  predicate Flushes(p: Policy, n: nat, k: nat, t: SeqState) {
    p.streaming(k) && (t.Finished() || |t.tokens| - p.offset(n, k) >= p.buffer)
  }

  function StreamOf(seqs: seq<SeqState>, k: nat): Response
    requires k < |seqs|
  {
    Stream(k, |seqs[k].tokens|, seqs[k].reason)
  }

  /** The loop of step over the batch, after each sequence has its token. */
  function Streams(seqs: seq<SeqState>, ids: seq<nat>, p: Policy, n: nat): (tasks: seq<Response>)
    requires Known(seqs, ids)
    ensures forall i :: 0 <= i < |tasks| ==> tasks[i].Stream? && tasks[i].k in ids
  {
    if ids == [] then []
    else
      var m := |ids| - 1;
      Streams(seqs, ids[..m], p, n) + if Flushes(p, n, ids[m], seqs[ids[m]]) then [StreamOf(seqs, ids[m])] else []
  }

  function Releases(rs: seq<nat>): seq<Response> { seq(|rs|, i requires 0 <= i < |rs| => Release(rs[i])) }

  /** What one event of the scheduler submits: streams after an execution, releases when a request is handed off. */
  ghost function Emitted(e: Engine, s: State, ev: Event, p: Policy, n: nat): seq<Response>
    requires Enabled(e, s, ev)
  {
    var s' := Next(e, s, ev);
    if ev.Execute? then Streams(s'.mem.seqs, s.seqBatch, p, n)
    else if |s.done| <= |s'.done| then Releases(s'.done[|s.done|..])
    else []
  }

  ghost function Trace(e: Engine, s: State, evs: seq<Event>, p: Policy): seq<Response>
    requires Valid(e, s, evs)
    decreases |evs|
  {
    if evs == [] then []
    else Emitted(e, s, evs[0], p, |evs|) + Trace(e, Next(e, s, evs[0]), evs[1..], p)
  }

  // ----- exactly these tasks

  lemma FlushesExactly(p: Policy, n: nat, k: nat, t: SeqState)
    ensures Flushes(p, n, k, t)
       <==> p.streaming(k) && (t.cancelled || t.stopped || |t.tokens| >= p.offset(n, k) + p.buffer)
  {
  }

  lemma {:induction false} StreamsSound(seqs: seq<SeqState>, ids: seq<nat>, p: Policy, n: nat)
    requires Known(seqs, ids)
    ensures forall task <- Streams(seqs, ids, p, n) ::
              && task.k in ids && task.k < |seqs| && Flushes(p, n, task.k, seqs[task.k])
              && task == Stream(task.k, |seqs[task.k].tokens|, seqs[task.k].reason)
  {
    if ids != [] { StreamsSound(seqs, ids[..|ids| - 1], p, n); }
  }

  lemma {:induction false} StreamsComplete(seqs: seq<SeqState>, ids: seq<nat>, p: Policy, n: nat, k: nat)
    requires Known(seqs, ids) && k in ids && k < |seqs| && Flushes(p, n, k, seqs[k])
    ensures Stream(k, |seqs[k].tokens|, seqs[k].reason) in Streams(seqs, ids, p, n)
  {
    var m := |ids| - 1;
    if k != ids[m] {
      assert k in ids[..m];
      StreamsComplete(seqs, ids[..m], p, n, k);
    }
  }

  /** A step streams exactly the batched sequences that flush, each up to its last token and with its finish reason. */
  lemma StreamsExactly(seqs: seq<SeqState>, ids: seq<nat>, p: Policy, n: nat, task: Response)
    requires Known(seqs, ids)
    ensures task in Streams(seqs, ids, p, n)
       <==> && task.Stream? && task.k in ids && task.k < |seqs| && Flushes(p, n, task.k, seqs[task.k])
            && task.end == |seqs[task.k].tokens| && task.reason == seqs[task.k].reason
  {
    StreamsSound(seqs, ids, p, n);
    if task.Stream? && task.k in ids && task.k < |seqs| && Flushes(p, n, task.k, seqs[task.k]) {
      StreamsComplete(seqs, ids, p, n, task.k);
    }
  }

  /** Whether the event flushes sequence k: it executes a batch with k in it, and k flushes afterwards. */
  ghost predicate FlushedNow(e: Engine, s: State, ev: Event, p: Policy, n: nat, k: nat)
    requires Enabled(e, s, ev)
  {
    ev.Execute? && k in s.seqBatch && k < |Next(e, s, ev).mem.seqs| && Flushes(p, n, k, Next(e, s, ev).mem.seqs[k])
  }

  /** How often sequence k is flushed in the run. */
  ghost function FlushCount(e: Engine, s: State, evs: seq<Event>, p: Policy, k: nat): nat
    requires Valid(e, s, evs)
    decreases |evs|
  {
    if evs == [] then 0
    else (if FlushedNow(e, s, evs[0], p, |evs|, k) then 1 else 0) + FlushCount(e, Next(e, s, evs[0]), evs[1..], p, k)
  }

  function StreamCount(tasks: seq<Response>, k: nat): nat {
    if tasks == [] then 0
    else (if tasks[0].Stream? && tasks[0].k == k then 1 else 0) + StreamCount(tasks[1..], k)
  }

  lemma {:induction false} StreamCountJoin(a: seq<Response>, b: seq<Response>, k: nat)
    ensures StreamCount(a + b, k) == StreamCount(a, k) + StreamCount(b, k)
  {
    if a == [] {
      assert a + b == b;
    } else {
      StreamCountJoin(a[1..], b, k);
      assert (a + b)[1..] == a[1..] + b;
    }
  }

  lemma {:induction false} NoStreams(tasks: seq<Response>, k: nat)
    requires forall i :: 0 <= i < |tasks| ==> !(tasks[i].Stream? && tasks[i].k == k)
    ensures StreamCount(tasks, k) == 0
  {
    if tasks != [] { NoStreams(tasks[1..], k); }
  }

  lemma {:induction false} StreamsCount(seqs: seq<SeqState>, ids: seq<nat>, p: Policy, n: nat, k: nat)
    requires Known(seqs, ids) && NoDup(ids)
    ensures StreamCount(Streams(seqs, ids, p, n), k)
         == if k in ids && k < |seqs| && Flushes(p, n, k, seqs[k]) then 1 else 0
  {
    if ids != [] {
      var m := |ids| - 1;
      StreamsCount(seqs, ids[..m], p, n, k);
      var last := if Flushes(p, n, ids[m], seqs[ids[m]]) then [StreamOf(seqs, ids[m])] else [];
      StreamCountJoin(Streams(seqs, ids[..m], p, n), last, k);
      assert last != [] ==> last[1..] == [];
      assert ids[m] !in ids[..m];
      assert k in ids <==> k in ids[..m] || k == ids[m];
    }
  }

  lemma EmittedCount(e: Engine, s: State, ev: Event, p: Policy, n: nat, k: nat)
    requires Inv(e, s) && Enabled(e, s, ev)
    ensures StreamCount(Emitted(e, s, ev, p, n), k)
         == if FlushedNow(e, s, ev, p, n, k) then 1 else 0
  {
    if ev.Execute? {
      StreamsCount(Next(e, s, ev).mem.seqs, s.seqBatch, p, n, k);
    } else {
      NoStreams(Emitted(e, s, ev, p, n), k);
    }
  }

  lemma ReleasedNow(done: seq<nat>, done': seq<nat>, r: nat)
    requires done <= done' && forall i, j :: 0 <= i < j < |done'| ==> done'[i] != done'[j]
    ensures Release(r) in Releases(done'[|done|..]) <==> r in done' && r !in done
  {
    var added, tasks := done'[|done|..], Releases(done'[|done|..]);
    assert done' == done + added;
    if r in added {
      var i :| 0 <= i < |added| && added[i] == r;
      assert tasks[i] == Release(r);
      forall j | 0 <= j < |done| ensures done[j] != r {
        assert done'[j] == done[j] && done'[|done| + i] == added[i];
      }
    }
    if Release(r) in tasks {
      var i :| 0 <= i < |tasks| && tasks[i] == Release(r);
      assert added[i] == r;
    }
  }

  lemma EmittedReleases(e: Engine, s: State, ev: Event, p: Policy, n: nat, r: nat)
    requires Inv(e, s) && Enabled(e, s, ev) && Inv(e, Next(e, s, ev))
    ensures Release(r) in Emitted(e, s, ev, p, n) <==> r in Next(e, s, ev).done && r !in s.done
  {
    DoneKept(e, s, ev);
    DoneOnce(e, Next(e, s, ev));
    if ev.Execute? {
      assert Next(e, s, ev).done == s.done;
    } else {
      ReleasedNow(s.done, Next(e, s, ev).done, r);
    }
  }

  /** Over every run a sequence is streamed once for each time it is flushed. */
  lemma {:induction false} TraceStreams(e: Engine, s: State, evs: seq<Event>, p: Policy, k: nat)
    requires Inv(e, s) && Valid(e, s, evs) && KeysDistinct(After(e, s, evs).reqs)
    ensures StreamCount(Trace(e, s, evs, p), k) == FlushCount(e, s, evs, p, k)
    decreases |evs|
  {
    if evs != [] {
      RequestsGrow(e, s, evs);
      StepKeeps(e, s, evs[0]);
      EmittedCount(e, s, evs[0], p, |evs|, k);
      TraceStreams(e, Next(e, s, evs[0]), evs[1..], p, k);
      StreamCountJoin(Emitted(e, s, evs[0], p, |evs|), Trace(e, Next(e, s, evs[0]), evs[1..], p), k);
    }
  }

  /** What an execution streams of a sequence reaches beyond what the sequence held before. */
  lemma EmittedEnds(e: Engine, s: State, ev: Event, p: Policy, n: nat, task: Response)
    requires Inv(e, s) && Enabled(e, s, ev) && task in Emitted(e, s, ev, p, n) && task.Stream?
    ensures task.k < |s.mem.seqs| && task.k < |Next(e, s, ev).mem.seqs|
    ensures |s.mem.seqs[task.k].tokens| < task.end == |Next(e, s, ev).mem.seqs[task.k].tokens|
  {
    StreamsSound(Next(e, s, ev).mem.seqs, s.seqBatch, p, n);
    StepEvolves(e, s, ev, task.k);
  }

  lemma {:induction false} LaterEnds(e: Engine, s: State, evs: seq<Event>, p: Policy, task: Response)
    requires Inv(e, s) && Valid(e, s, evs) && KeysDistinct(After(e, s, evs).reqs)
    requires task in Trace(e, s, evs, p) && task.Stream? && task.k < |s.mem.seqs|
    ensures task.end > |s.mem.seqs[task.k].tokens|
    decreases |evs|
  {
    if evs != [] {
      RequestsGrow(e, s, evs);
      StepKeeps(e, s, evs[0]);
      if task in Emitted(e, s, evs[0], p, |evs|) {
        EmittedEnds(e, s, evs[0], p, |evs|, task);
      } else {
        StepEvolves(e, s, evs[0], task.k);
        LaterEnds(e, Next(e, s, evs[0]), evs[1..], p, task);
      }
    }
  }

  /** Two streams of one sequence: the later one reaches further. */
  predicate EndsGrow(tasks: seq<Response>) {
    forall i, j :: 0 <= i < j < |tasks| && tasks[i].Stream? && tasks[j].Stream? && tasks[i].k == tasks[j].k ==>
      tasks[i].end < tasks[j].end
  }

  lemma OneMoreStream(front: seq<Response>, last: Response)
    requires EndsGrow(front) && last.Stream? && forall task <- front :: task.Stream? ==> task.k != last.k
    ensures EndsGrow(front + [last])
  {
    assert forall i :: 0 <= i < |front| ==> front[i] in front;
  }

  lemma {:induction false} OneStreamEach(seqs: seq<SeqState>, ids: seq<nat>, p: Policy, n: nat)
    requires Known(seqs, ids) && NoDup(ids)
    ensures EndsGrow(Streams(seqs, ids, p, n))
  {
    if ids != [] {
      var m := |ids| - 1;
      OneStreamEach(seqs, ids[..m], p, n);
      StreamsSound(seqs, ids[..m], p, n);
      assert ids[m] !in ids[..m];
      if Flushes(p, n, ids[m], seqs[ids[m]]) {
        OneMoreStream(Streams(seqs, ids[..m], p, n), StreamOf(seqs, ids[m]));
      }
    }
  }

  lemma ReleasesGrow(rs: seq<nat>)
    ensures EndsGrow(Releases(rs))
  {
  }

  lemma EndsOfOneEvent(e: Engine, s: State, ev: Event, p: Policy, n: nat)
    requires Inv(e, s) && Enabled(e, s, ev)
    ensures EndsGrow(Emitted(e, s, ev, p, n))
  {
    if ev.Execute? {
      OneStreamEach(Next(e, s, ev).mem.seqs, s.seqBatch, p, n);
    } else if |s.done| <= |Next(e, s, ev).done| {
      ReleasesGrow(Next(e, s, ev).done[|s.done|..]);
    }
  }

  lemma EndsJoin(front: seq<Response>, later: seq<Response>)
    requires EndsGrow(front) && EndsGrow(later)
    requires forall a, b :: a in front && b in later && a.Stream? && b.Stream? && a.k == b.k ==> a.end < b.end
    ensures EndsGrow(front + later)
  {
    var tasks := front + later;
    forall i, j | 0 <= i < j < |tasks| && tasks[i].Stream? && tasks[j].Stream? && tasks[i].k == tasks[j].k
      ensures tasks[i].end < tasks[j].end
    {
      if i < |front| <= j {
        assert tasks[i] in front && tasks[j] in later;
      }
    }
  }

  /** In every run the flush points of a sequence increase, as its incremental decoding needs. */
  lemma {:induction false} FlushPointsIncrease(e: Engine, s: State, evs: seq<Event>, p: Policy)
    requires Inv(e, s) && Valid(e, s, evs) && KeysDistinct(After(e, s, evs).reqs)
    ensures EndsGrow(Trace(e, s, evs, p))
    decreases |evs|
  {
    if evs != [] {
      var s', now := Next(e, s, evs[0]), Emitted(e, s, evs[0], p, |evs|);
      RequestsGrow(e, s, evs);
      StepKeeps(e, s, evs[0]);
      FlushPointsIncrease(e, s', evs[1..], p);
      EndsOfOneEvent(e, s, evs[0], p, |evs|);
      var later := Trace(e, s', evs[1..], p);
      forall a, b | a in now && b in later && a.Stream? && b.Stream? && a.k == b.k ensures a.end < b.end {
        EmittedEnds(e, s, evs[0], p, |evs|, a);
        LaterEnds(e, s', evs[1..], p, b);
      }
      EndsJoin(now, later);
    }
  }

  lemma StillDone(e: Engine, s: State, ev: Event, r: nat)
    requires Enabled(e, s, ev) && Sorted(s.reqs, s.batch) && r in s.done
    ensures r in Next(e, s, ev).done
  {
    DoneKept(e, s, ev);
    assert Next(e, s, ev).done == s.done + Next(e, s, ev).done[|s.done|..];
  }

  /** Over every run a request is released exactly when it is handed off. */
  lemma {:induction false} TraceReleases(e: Engine, s: State, evs: seq<Event>, p: Policy, r: nat)
    requires Inv(e, s) && Valid(e, s, evs) && KeysDistinct(After(e, s, evs).reqs)
    ensures Release(r) in Trace(e, s, evs, p) <==> r in After(e, s, evs).done && r !in s.done
    ensures r in s.done ==> r in After(e, s, evs).done
    decreases |evs|
  {
    if evs != [] {
      RequestsGrow(e, s, evs);
      StepKeeps(e, s, evs[0]);
      EmittedReleases(e, s, evs[0], p, |evs|, r);
      if r in s.done { StillDone(e, s, evs[0], r); }
      TraceReleases(e, Next(e, s, evs[0]), evs[1..], p, r);
    }
  }

  // ----- nothing is used after it is freed

  /** This response has nothing to do with a request of `gone`. */
  predicate Clear(reqs: seq<Request>, task: Response, gone: nat) {
    match task
    case Stream(k, _, _) => gone < |reqs| ==> k !in reqs[gone].seqs
    case Release(r) => r != gone
  }

  predicate AllClear(reqs: seq<Request>, tasks: seq<Response>, done: seq<nat>) {
    forall j, r :: 0 <= j < |tasks| && r in done ==> Clear(reqs, tasks[j], r)
  }

  /** After the release of a request nothing streams one of its sequences and nothing releases it again. */
  predicate FreedLast(reqs: seq<Request>, tasks: seq<Response>) {
    forall i, j :: 0 <= i < j < |tasks| && tasks[i].Release? ==> Clear(reqs, tasks[j], tasks[i].r)
  }

  lemma BatchIsAlive(e: Engine, s: State, k: nat, r: nat)
    requires Inv(e, s) && s.phase == Ready && k in s.seqBatch && r in s.done
    ensures r < |s.reqs| && k !in s.reqs[r].seqs
  {
    InRange(|s.reqs|, s.intake, s.heap, s.batch, s.done);
    assert OwnerIn(s.reqs, s.batch, k);
    var q :| q in s.batch && q < |s.reqs| && k in s.reqs[q].seqs;
    assert q != r;
  }

  lemma DoneOnce(e: Engine, s: State)
    requires Inv(e, s)
    ensures forall i, j :: 0 <= i < j < |s.done| ==> s.done[i] != s.done[j]
    ensures forall r <- s.done :: r < |s.reqs|
  {
    InRange(|s.reqs|, s.intake, s.heap, s.batch, s.done);
    forall i, j | 0 <= i < j < |s.done| ensures s.done[i] != s.done[j] {
      var r, m := s.done[i], multiset(s.intake) + multiset(s.heap) + multiset(s.batch) + multiset(s.done);
      assert m[r] == 1;
      if s.done[j] == r { TwiceIn(s.done, i, j); }
    }
  }

  lemma TwiceIn(xs: seq<nat>, i: nat, j: nat)
    requires i < j < |xs| && xs[i] == xs[j]
    ensures multiset(xs)[xs[i]] >= 2
  {
    assert xs == xs[..j] + [xs[j]] + xs[j + 1..];
    assert xs[i] in xs[..j];
  }

  /** Only streams, or only releases of requests in `done`. */
  predicate Uniform(tasks: seq<Response>, done: seq<nat>) {
    || (forall i :: 0 <= i < |tasks| ==> tasks[i].Stream?)
    || (forall i :: 0 <= i < |tasks| ==> tasks[i].Release? && tasks[i].r in done)
  }

  lemma StreamsSafe(e: Engine, s: State, tasks: seq<Response>)
    requires Inv(e, s) && s.phase == Ready
    requires forall i :: 0 <= i < |tasks| ==> tasks[i].Stream? && tasks[i].k in s.seqBatch
    ensures AllClear(s.reqs, tasks, s.done)
  {
    forall j, r | 0 <= j < |tasks| && r in s.done ensures Clear(s.reqs, tasks[j], r) {
      BatchIsAlive(e, s, tasks[j].k, r);
    }
  }

  lemma ReleasesSafe(reqs: seq<Request>, done: seq<nat>, done': seq<nat>)
    requires done <= done' && forall i, j :: 0 <= i < j < |done'| ==> done'[i] != done'[j]
    ensures var tasks := Releases(done'[|done|..]);
            AllClear(reqs, tasks, done) && FreedLast(reqs, tasks) && Uniform(tasks, done')
  {
    var tasks := Releases(done'[|done|..]);
    forall j, r | 0 <= j < |tasks| && r in done ensures Clear(reqs, tasks[j], r) {
      var i :| 0 <= i < |done| && done[i] == r;
      assert tasks[j].r == done'[|done| + j] && r == done'[i];
    }
  }

  /** One event submits nothing about a request that was already handed off, and is itself in order. */
  lemma EmittedSafe(e: Engine, s: State, ev: Event, p: Policy, n: nat)
    requires Inv(e, s) && Enabled(e, s, ev) && Inv(e, Next(e, s, ev))
    ensures AllClear(s.reqs, Emitted(e, s, ev, p, n), s.done)
    ensures FreedLast(s.reqs, Emitted(e, s, ev, p, n))
    ensures Uniform(Emitted(e, s, ev, p, n), Next(e, s, ev).done)
  {
    if ev.Execute? {
      StreamsSafe(e, s, Streams(Next(e, s, ev).mem.seqs, s.seqBatch, p, n));
    } else {
      DoneKept(e, s, ev);
      DoneOnce(e, Next(e, s, ev));
      ReleasesSafe(s.reqs, s.done, Next(e, s, ev).done);
    }
  }

  /** The facts about one event that its place in a run needs. */
  lemma EventSafe(e: Engine, s: State, ev: Event, p: Policy, n: nat)
    requires Inv(e, s) && Enabled(e, s, ev) && KeysDistinct(s.reqs)
    ensures Inv(e, Next(e, s, ev))
    ensures s.done <= Next(e, s, ev).done && (forall r <- s.done :: r < |s.reqs|)
    ensures AllClear(s.reqs, Emitted(e, s, ev, p, n), s.done)
    ensures FreedLast(s.reqs, Emitted(e, s, ev, p, n))
    ensures Uniform(Emitted(e, s, ev, p, n), Next(e, s, ev).done)
  {
    StepKeeps(e, s, ev);
    DoneKept(e, s, ev);
    DoneOnce(e, s);
    EmittedSafe(e, s, ev, p, n);
  }

  lemma {:induction false} TraceSafe(e: Engine, s: State, evs: seq<Event>, p: Policy)
    requires Inv(e, s) && Valid(e, s, evs) && KeysDistinct(After(e, s, evs).reqs)
    ensures AllClear(After(e, s, evs).reqs, Trace(e, s, evs, p), s.done)
    ensures FreedLast(After(e, s, evs).reqs, Trace(e, s, evs, p))
    decreases |evs|
  {
    if evs != [] {
      var s', reqs := Next(e, s, evs[0]), After(e, s, evs).reqs;
      RequestsGrow(e, s, evs);
      EventSafe(e, s, evs[0], p, |evs|);
      TraceSafe(e, s', evs[1..], p);
      TraceJoin(s.reqs, reqs, Emitted(e, s, evs[0], p, |evs|), Trace(e, s', evs[1..], p), s.done, s'.done);
    }
  }

  lemma TraceJoin(reqs0: seq<Request>, reqs: seq<Request>, now: seq<Response>, later: seq<Response>,
                  done: seq<nat>, done': seq<nat>)
    requires reqs0 <= reqs && done <= done' && (forall r <- done :: r < |reqs0|)
    requires AllClear(reqs0, now, done) && FreedLast(reqs0, now)
    requires Uniform(now, done')
    requires AllClear(reqs, later, done') && FreedLast(reqs, later)
    ensures AllClear(reqs, now + later, done) && FreedLast(reqs, now + later)
  {
    var tasks := now + later;
    forall j, r | 0 <= j < |tasks| && r in done ensures Clear(reqs, tasks[j], r) {
      if j < |now| {
        assert Clear(reqs0, now[j], r);
      } else {
        assert r in done' && Clear(reqs, later[j - |now|], r);
      }
    }
    forall i, j | 0 <= i < j < |tasks| && tasks[i].Release? ensures Clear(reqs, tasks[j], tasks[i].r) {
      if j < |now| {
        assert Clear(reqs0, now[j], now[i].r);
      } else if i < |now| {
        assert now[i] in now && Clear(reqs, later[j - |now|], now[i].r);
      } else {
        assert Clear(reqs, later[j - |now|], later[i - |now|].r);
      }
    }
  }

  lemma UsedBefore(reqs: seq<Request>, tasks: seq<Response>, i: nat, j: nat)
    requires i < |tasks| && j < |tasks| && FreedLast(reqs, tasks)
    requires tasks[i].Release? && !Clear(reqs, tasks[j], tasks[i].r)
    ensures j <= i && (j < i ==> tasks[j].Stream?)
  {
  }

  /** Lifetime safety: in every run of the scheduler, with its tasks on an executor with one worker, when the job that
      frees a request starts, every task submitted so far or later that reads one of the request's sequences has been
      submitted before it and has returned. */
  lemma FreedAfterLastUse(e: Engine, cache: seq<KV>, evs: seq<Event>, policy: Policy, p: Executors.Pool<Response>, i: nat, j: nat)
    requires e.blockSize > 0 && |cache| == e.numBlocks * e.blockSize
    requires Valid(e, Initial(e, cache), evs) && KeysDistinct(After(e, Initial(e, cache), evs).reqs)
    requires Executors.Reached(p, 1) && Executors.Jobs(p.pushed) == Trace(e, Initial(e, cache), evs, policy)
    requires i < |p.started| && p.started[i].Release? && j < |Executors.Jobs(p.pushed)|
    requires !Clear(After(e, Initial(e, cache), evs).reqs, Executors.Jobs(p.pushed)[j], p.started[i].r)
    ensures j <= i && (j < i ==> Executors.Jobs(p.pushed)[j].Stream? && j < |p.finished| && p.finished[j] == Executors.Jobs(p.pushed)[j])
  {
    InitialInv(e, cache);
    TraceSafe(e, Initial(e, cache), evs, policy);
    Executors.SingleWorkerRunsInOrder(p);
    var tasks := Executors.Jobs(p.pushed);
    assert tasks[i] == p.started[i];
    UsedBefore(After(e, Initial(e, cache), evs).reqs, tasks, i, j);
  }
}
