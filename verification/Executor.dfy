/** The executor (src/common/executor.cpp) over its blocking FIFO queue (src/common/concurrent_queue.h): worker
    threads take tasks until each has taken one stop mark. */
module Executors {

  // ----- the queue, as an object

  /** A FIFO queue with an optional capacity; a method is called at the moment its wait is over. */
  class ConcurrentQueue<T> {
    var queue: seq<T>
    const capacity: nat

    constructor (capacity: nat)
      ensures queue == [] && this.capacity == capacity
    {
      queue := [];
      this.capacity := capacity;
    }

    predicate HasRoom()
      reads this
    {
      capacity == 0 || |queue| < capacity
    }

    method Push(value: T)
      requires HasRoom()
      modifies this
      ensures queue == old(queue) + [value]
      ensures capacity > 0 && old(|queue|) <= capacity ==> |queue| <= capacity
    {
      queue := queue + [value];
    }

    method Pop() returns (value: T)
      requires queue != []
      modifies this
      ensures value == old(queue[0]) && queue == old(queue[1..])
    {
      value := queue[0];
      queue := queue[1..];
    }
  }

  // ----- the worker threads, as a state machine

  datatype Work<T> = Task(job: T) | Stop

  datatype Worker<T> = Waiting | Busy(job: T) | Exited

  /** Everything ever pushed, how much of it has been popped, what each worker is doing, and the jobs in the order in
      which they were started and in which they returned. */
  datatype Pool<T> = Pool(
    pushed: seq<Work<T>>,
    popped: nat,
    workers: seq<Worker<T>>,
    started: seq<T>,
    finished: seq<T>)

  datatype Event<T> = Submit(job: T) | SendStop | Take(t: nat) | Return(t: nat)

  function NewPool<T>(numThreads: nat): Pool<T> {
    Pool([], 0, seq(numThreads, _ => Waiting), [], [])
  }

  function Stops<T>(works: seq<Work<T>>): nat {
    if works == [] then 0 else Stops(works[..|works| - 1]) + if works[|works| - 1].Stop? then 1 else 0
  }

  function JobIn<T>(w: Work<T>): seq<T> {
    match w case Task(job) => [job] case Stop => []
  }

  function Jobs<T>(works: seq<Work<T>>): seq<T> {
    if works == [] then []
    else Jobs(works[..|works| - 1]) + JobIn(works[|works| - 1])
  }

  predicate Enabled<T>(p: Pool<T>, ev: Event<T>) {
    match ev
    case Submit(_) => true
    case SendStop => Stops(p.pushed) < |p.workers|
    case Take(t) => t < |p.workers| && p.workers[t].Waiting? && p.popped < |p.pushed|
    case Return(t) => t < |p.workers| && p.workers[t].Busy?
  }

  function Next<T>(p: Pool<T>, ev: Event<T>): Pool<T>
    requires Enabled(p, ev)
  {
    match ev
    case Submit(job) => p.(pushed := p.pushed + [Task(job)])
    case SendStop => p.(pushed := p.pushed + [Stop])
    case Take(t) =>
      (match p.pushed[p.popped]
       case Task(job) => p.(popped := p.popped + 1, workers := p.workers[t := Busy(job)], started := p.started + [job])
       case Stop => p.(popped := p.popped + 1, workers := p.workers[t := Exited]))
    case Return(t) => p.(workers := p.workers[t := Waiting], finished := p.finished + [p.workers[t].job])
  }

  predicate Valid<T>(p: Pool<T>, evs: seq<Event<T>>)
    decreases |evs|
  {
    evs == [] || (Enabled(p, evs[0]) && Valid(Next(p, evs[0]), evs[1..]))
  }

  function After<T>(p: Pool<T>, evs: seq<Event<T>>): Pool<T>
    requires Valid(p, evs)
    decreases |evs|
  {
    if evs == [] then p else After(Next(p, evs[0]), evs[1..])
  }

  // ----- the invariant

  function ExitedCount<T>(workers: seq<Worker<T>>): nat {
    if workers == [] then 0 else (if workers[0].Exited? then 1 else 0) + ExitedCount(workers[1..])
  }

  function JobOf<T(==)>(w: Worker<T>): multiset<T> { if w.Busy? then multiset{w.job} else multiset{} }

  function Running<T(==)>(workers: seq<Worker<T>>): multiset<T> {
    if workers == [] then multiset{} else JobOf(workers[0]) + Running(workers[1..])
  }

  predicate AllExited<T>(workers: seq<Worker<T>>) { forall t :: 0 <= t < |workers| ==> workers[t].Exited? }

  /** Started tasks are running or have returned. */
  ghost predicate Accounted<T>(started: seq<T>, finished: seq<T>, workers: seq<Worker<T>>) {
    multiset(started) == multiset(finished) + Running(workers)
  }

  /** Tasks are started in the order of submission; one worker has exited for each stop mark taken, and the last of them
      took the last item taken. */
  predicate Tracked<T(==)>(p: Pool<T>) {
    && p.popped <= |p.pushed|
    && p.started == Jobs(p.pushed[..p.popped])
    && ExitedCount(p.workers) == Stops(p.pushed[..p.popped])
    && Stops(p.pushed) <= |p.workers|
    && (AllExited(p.workers) && p.popped > 0 ==> p.pushed[p.popped - 1].Stop?)
  }

  ghost predicate Inv<T>(p: Pool<T>) { Tracked(p) && Accounted(p.started, p.finished, p.workers) }

  lemma {:induction false} ExitedUpdate<T>(workers: seq<Worker<T>>, t: nat, w: Worker<T>)
    requires t < |workers|
    ensures ExitedCount(workers[t := w]) + (if workers[t].Exited? then 1 else 0)
            == ExitedCount(workers) + if w.Exited? then 1 else 0
  {
    if t == 0 {
      assert workers[t := w][1..] == workers[1..];
    } else {
      ExitedUpdate(workers[1..], t - 1, w);
      assert workers[t := w][1..] == workers[1..][t - 1 := w];
    }
  }

  lemma Reassociate<T>(h: multiset<T>, r': multiset<T>, a: multiset<T>, r: multiset<T>, b: multiset<T>)
    requires r' + a == r + b
    ensures (h + r') + a == (h + r) + b
  {
    assert (h + r') + a == h + (r' + a);
    assert (h + r) + b == h + (r + b);
  }

  lemma {:induction false} RunningUpdate<T>(workers: seq<Worker<T>>, t: nat, w: Worker<T>)
    requires t < |workers|
    ensures Running(workers[t := w]) + JobOf(workers[t]) == Running(workers) + JobOf(w)
  {
    var rest := workers[1..];
    if t == 0 {
      assert workers[t := w][1..] == rest;
      assert (JobOf(w) + Running(rest)) + JobOf(workers[0]) == (JobOf(workers[0]) + Running(rest)) + JobOf(w);
    } else {
      RunningUpdate(rest, t - 1, w);
      assert workers[t := w][1..] == rest[t - 1 := w];
      Reassociate(JobOf(workers[0]), Running(rest[t - 1 := w]), JobOf(workers[t]), Running(rest), JobOf(w));
    }
  }

  lemma StartAccounted<T>(started: seq<T>, finished: seq<T>, workers: seq<Worker<T>>, t: nat, w: Worker<T>, jobs: seq<T>)
    requires t < |workers| && workers[t].Waiting? && multiset(jobs) == JobOf(w) && Accounted(started, finished, workers)
    ensures Accounted(started + jobs, finished, workers[t := w])
  {
    RunningUpdate(workers, t, w);
    assert Running(workers[t := w]) == Running(workers) + JobOf(w);
    assert multiset(started + jobs) == (multiset(finished) + Running(workers)) + JobOf(w);
    assert multiset(finished) + (Running(workers) + JobOf(w)) == (multiset(finished) + Running(workers)) + JobOf(w);
  }

  lemma ReturnAccounted<T>(started: seq<T>, finished: seq<T>, workers: seq<Worker<T>>, t: nat)
    requires t < |workers| && workers[t].Busy? && Accounted(started, finished, workers)
    ensures Accounted(started, finished + [workers[t].job], workers[t := Waiting])
  {
    var workers' := workers[t := Waiting];
    RunningUpdate(workers, t, Waiting);
    assert Running(workers) == Running(workers') + JobOf(workers[t]);
    assert multiset(finished + [workers[t].job]) == multiset(finished) + JobOf(workers[t]);
    assert multiset(finished) + (Running(workers') + JobOf(workers[t]))
        == (multiset(finished) + JobOf(workers[t])) + Running(workers');
  }

  lemma {:induction false} ExitedBound<T>(workers: seq<Worker<T>>)
    ensures ExitedCount(workers) <= |workers|
    ensures ExitedCount(workers) == |workers| <==> AllExited(workers)
  {
    if workers != [] {
      ExitedBound(workers[1..]);
      assert workers == [workers[0]] + workers[1..];
    }
  }

  lemma PushedOne<T>(works: seq<Work<T>>, w: Work<T>)
    ensures Stops(works + [w]) == Stops(works) + if w.Stop? then 1 else 0
    ensures Jobs(works + [w]) == Jobs(works) + JobIn(w)
  {
    assert (works + [w])[..|works|] == works;
  }

  lemma PushKeeps<T>(p: Pool<T>, w: Work<T>)
    requires Inv(p) && (w.Stop? ==> Stops(p.pushed) < |p.workers|)
    ensures Inv(p.(pushed := p.pushed + [w]))
  {
    PushedOne(p.pushed, w);
    assert (p.pushed + [w])[..p.popped] == p.pushed[..p.popped];
  }

  lemma TakenOne<T>(p: Pool<T>, w: Work<T>)
    requires p.popped < |p.pushed| && w == p.pushed[p.popped]
    ensures Stops(p.pushed[..p.popped + 1]) == Stops(p.pushed[..p.popped]) + if w.Stop? then 1 else 0
    ensures Jobs(p.pushed[..p.popped + 1]) == Jobs(p.pushed[..p.popped]) + JobIn(w)
  {
    PushedOne(p.pushed[..p.popped], w);
    assert p.pushed[..p.popped + 1] == p.pushed[..p.popped] + [w];
  }

  function Taking<T>(w: Work<T>): Worker<T> { match w case Task(job) => Busy(job) case Stop => Exited }

  lemma TakeTracked<T>(p: Pool<T>, t: nat)
    requires Tracked(p) && Enabled(p, Take(t))
    ensures Tracked(Next(p, Take(t)))
  {
    var w := p.pushed[p.popped];
    TakenOne(p, w);
    ExitedUpdate(p.workers, t, Taking(w));
    assert p.workers[t := Taking(w)][t] == Taking(w);
  }

  lemma TakeKeeps<T>(p: Pool<T>, t: nat)
    requires Inv(p) && Enabled(p, Take(t))
    ensures Inv(Next(p, Take(t)))
  {
    var w := p.pushed[p.popped];
    TakeTracked(p, t);
    StartAccounted(p.started, p.finished, p.workers, t, Taking(w), JobIn(w));
    assert w.Stop? ==> p.started + JobIn(w) == p.started;
  }

  lemma ReturnKeeps<T>(p: Pool<T>, t: nat)
    requires Inv(p) && Enabled(p, Return(t))
    ensures Inv(Next(p, Return(t)))
  {
    ExitedUpdate(p.workers, t, Waiting);
    ReturnAccounted(p.started, p.finished, p.workers, t);
    assert !Next(p, Return(t)).workers[t].Exited?;
  }

  lemma SameThreads<T>(p: Pool<T>, ev: Event<T>)
    requires Enabled(p, ev)
    ensures |Next(p, ev).workers| == |p.workers|
  {
  }

  lemma StepKeeps<T>(p: Pool<T>, ev: Event<T>)
    requires Inv(p) && Enabled(p, ev)
    ensures Inv(Next(p, ev))
  {
    match ev
    case Submit(job) => PushKeeps(p, Task(job));
    case SendStop => PushKeeps(p, Stop);
    case Take(t) => TakeKeeps(p, t);
    case Return(t) => ReturnKeeps(p, t);
  }

  lemma {:induction false} RunKeeps<T>(p: Pool<T>, evs: seq<Event<T>>)
    requires Inv(p) && Valid(p, evs)
    ensures Inv(After(p, evs)) && |After(p, evs).workers| == |p.workers|
    decreases |evs|
  {
    if evs != [] {
      StepKeeps(p, evs[0]);
      SameThreads(p, evs[0]);
      RunKeeps(Next(p, evs[0]), evs[1..]);
    }
  }

  lemma {:induction false} FreshWorkers<T>(workers: seq<Worker<T>>)
    requires forall t :: 0 <= t < |workers| ==> workers[t].Waiting?
    ensures ExitedCount(workers) == 0 && Running(workers) == multiset{}
  {
    if workers != [] { FreshWorkers(workers[1..]); }
  }

  ghost predicate Reached<T(!new)>(p: Pool<T>, numThreads: nat) {
    exists evs: seq<Event<T>> :: Valid(NewPool(numThreads), evs) && p == After(NewPool(numThreads), evs)
  }

  lemma ReachedInv<T(!new)>(p: Pool<T>, numThreads: nat)
    requires Reached(p, numThreads)
    ensures Inv(p) && |p.workers| == numThreads
  {
    var evs: seq<Event<T>> :| Valid(NewPool(numThreads), evs) && p == After(NewPool(numThreads), evs);
    FreshWorkers(NewPool<T>(numThreads).workers);
    RunKeeps(NewPool(numThreads), evs);
  }

  // ----- with any number of threads

  lemma Associate<T>(a: seq<T>, b: seq<T>, c: seq<T>)
    ensures a + (b + c) == (a + b) + c
  {
  }

  lemma {:induction false} JobsJoin<T>(a: seq<Work<T>>, b: seq<Work<T>>)
    ensures Jobs(a + b) == Jobs(a) + Jobs(b)
    ensures Stops(a + b) == Stops(a) + Stops(b)
    decreases |b|
  {
    if b == [] {
      assert a + b == a;
    } else {
      var front, w := b[..|b| - 1], b[|b| - 1];
      JobsJoin(a, front);
      PushedOne(a + front, w);
      assert (a + front) + [w] == a + b;
      Associate(Jobs(a), Jobs(front), JobIn(w));
    }
  }

  lemma JobsPrefix<T>(works: seq<Work<T>>, k: nat)
    requires k <= |works|
    ensures Jobs(works) == Jobs(works[..k]) + Jobs(works[k..])
    ensures Stops(works) == Stops(works[..k]) + Stops(works[k..])
  {
    JobsJoin(works[..k], works[k..]);
    assert works[..k] + works[k..] == works;
  }

  /** In every run tasks start in the order of submission, each at most once. */
  lemma StartedInOrder<T(!new)>(p: Pool<T>, numThreads: nat)
    requires Reached(p, numThreads)
    ensures p.popped <= |p.pushed|
    ensures Jobs(p.pushed) == p.started + Jobs(p.pushed[p.popped..])
    ensures multiset(p.started) == multiset(p.finished) + Running(p.workers)
  {
    ReachedInv(p, numThreads);
    JobsPrefix(p.pushed, p.popped);
  }

  /** No worker can do anything: none runs a task, and none that waits finds anything in the queue. */
  predicate Quiet<T>(p: Pool<T>) {
    forall t :: 0 <= t < |p.workers| ==> !p.workers[t].Busy? && (p.workers[t].Waiting? ==> p.popped >= |p.pushed|)
  }

  function WorkLeft<T>(p: Pool<T>): int { 2 * (|p.pushed| - p.popped) + BusyCount(p.workers) }

  function BusyCount<T>(workers: seq<Worker<T>>): nat {
    if workers == [] then 0 else (if workers[0].Busy? then 1 else 0) + BusyCount(workers[1..])
  }

  lemma {:induction false} BusyUpdate<T>(workers: seq<Worker<T>>, t: nat, w: Worker<T>)
    requires t < |workers|
    ensures BusyCount(workers[t := w]) + (if workers[t].Busy? then 1 else 0) == BusyCount(workers) + if w.Busy? then 1 else 0
  {
    if t == 0 {
      assert workers[t := w][1..] == workers[1..];
    } else {
      BusyUpdate(workers[1..], t - 1, w);
      assert workers[t := w][1..] == workers[1..][t - 1 := w];
    }
  }

  predicate WorkerStep<T>(ev: Event<T>) { ev.Take? || ev.Return? }

  lemma WorkUsedUp<T>(p: Pool<T>, ev: Event<T>)
    requires Enabled(p, ev) && WorkerStep(ev)
    ensures WorkLeft(Next(p, ev)) < WorkLeft(p) && (p.popped <= |p.pushed| ==> Next(p, ev).popped <= |Next(p, ev).pushed|)
  {
    BusyUpdate(p.workers, ev.t, Next(p, ev).workers[ev.t]);
  }

  /** A pool is at rest exactly when no worker can take a step. */
  lemma RestExactly<T(!new)>(p: Pool<T>)
    ensures Quiet(p) <==> forall t :: !Enabled(p, Take(t)) && !Enabled(p, Return(t))
  {
    if !Quiet(p) {
      var t :| 0 <= t < |p.workers| && (p.workers[t].Busy? || (p.workers[t].Waiting? && p.popped < |p.pushed|));
      assert Enabled(p, Take(t)) || Enabled(p, Return(t));
    }
    if Quiet(p) {
      forall t: nat ensures !Enabled(p, Take(t)) && !Enabled(p, Return(t)) {
      }
    }
  }

  /** With nothing more pushed the workers come to rest: no run of their steps is longer than the work that is left, and
      one that cannot be continued has reached rest. */
  lemma {:induction false} WorkersComeToRest<T(!new)>(p: Pool<T>, evs: seq<Event<T>>)
    requires p.popped <= |p.pushed| && Valid(p, evs) && forall i :: 0 <= i < |evs| ==> WorkerStep(evs[i])
    ensures 0 <= WorkLeft(After(p, evs)) && |evs| + WorkLeft(After(p, evs)) <= WorkLeft(p)
    ensures (forall t :: !Enabled(After(p, evs), Take(t)) && !Enabled(After(p, evs), Return(t))) ==> Quiet(After(p, evs))
    decreases |evs|
  {
    if evs == [] {
      RestExactly(p);
    } else {
      WorkUsedUp(p, evs[0]);
      WorkersComeToRest(Next(p, evs[0]), evs[1..]);
    }
  }

  lemma {:induction false} NoneRunning<T>(workers: seq<Worker<T>>)
    requires forall t :: 0 <= t < |workers| ==> !workers[t].Busy?
    ensures Running(workers) == multiset{}
  {
    if workers != [] { NoneRunning(workers[1..]); }
  }

  /** At rest after one stop mark per thread, every thread has exited; the tasks left unrun are exactly those pushed
      after the last stop mark, and every other task has run exactly once. */
  lemma ShutdownLeavesNobodyWaiting<T(!new)>(p: Pool<T>, numThreads: nat)
    requires Reached(p, numThreads) && numThreads > 0 && Stops(p.pushed) == numThreads && Quiet(p)
    ensures AllExited(p.workers)
    ensures 0 < p.popped <= |p.pushed| && p.pushed[p.popped - 1].Stop? && Stops(p.pushed[p.popped..]) == 0
    ensures multiset(p.finished) == multiset(Jobs(p.pushed[..p.popped]))
    ensures p.started == Jobs(p.pushed) <==> p.popped == |p.pushed|
  {
    ReachedInv(p, numThreads);
    ExitedBound(p.workers);
    JobsPrefix(p.pushed, p.popped);
    assert p.popped == |p.pushed| ==> p.pushed[..p.popped] == p.pushed;
    assert AllExited(p.workers);
    NoneRunning(p.workers);
    NoneTaken(p.pushed, p.popped);
    if p.popped < |p.pushed| {
      NoStopsAllJobs(p.pushed[p.popped..]);
    } else {
      assert p.pushed[p.popped..] == [];
    }
  }

  lemma NoneTaken<T>(works: seq<Work<T>>, k: nat)
    requires k <= |works|
    ensures k == 0 ==> Stops(works[..k]) == 0
  {
  }

  lemma {:induction false} NoStopsAllJobs<T>(works: seq<Work<T>>)
    requires Stops(works) == 0
    ensures |Jobs(works)| == |works|
  {
    if works != [] { NoStopsAllJobs(works[..|works| - 1]); }
  }

  /** When no task is submitted after the first stop mark, shutdown leaves no task unrun. */
  lemma ShutdownRunsEverything<T(!new)>(p: Pool<T>, numThreads: nat, cut: nat)
    requires Reached(p, numThreads) && numThreads > 0 && Stops(p.pushed) == numThreads && Quiet(p)
    requires cut <= |p.pushed| && forall i :: cut <= i < |p.pushed| ==> p.pushed[i].Stop?
    requires Stops(p.pushed[..cut]) == 0
    ensures p.started == Jobs(p.pushed) && multiset(p.finished) == multiset(Jobs(p.pushed))
  {
    ShutdownLeavesNobodyWaiting(p, numThreads);
    if p.popped < |p.pushed| {
      NoStopsAfter(p.pushed, p.popped, cut);
    }
    assert p.pushed[..|p.pushed|] == p.pushed;
  }

  lemma NoStopsAfter<T>(works: seq<Work<T>>, k: nat, cut: nat)
    requires 0 < k < |works| && works[k - 1].Stop? && cut <= |works| && Stops(works[..cut]) == 0
    requires forall i :: cut <= i < |works| ==> works[i].Stop?
    ensures Stops(works[k..]) > 0
  {
    if k <= cut {
      StopInside(works[..cut], k - 1);
    }
    assert works[k..][|works| - k - 1].Stop?;
  }

  lemma {:induction false} StopInside<T>(works: seq<Work<T>>, i: nat)
    requires i < |works| && works[i].Stop?
    ensures Stops(works) > 0
  {
    if i < |works| - 1 { StopInside(works[..|works| - 1], i); }
  }

  // ----- with one thread

  /** One worker returns from each task before it starts the next. */
  ghost predicate InTurn<T>(p: Pool<T>) {
    && |p.workers| == 1
    && p.started == p.finished + if p.workers[0].Busy? then [p.workers[0].job] else []
  }

  lemma {:induction false} RunInTurn<T>(p: Pool<T>, evs: seq<Event<T>>)
    requires InTurn(p) && Valid(p, evs)
    ensures InTurn(After(p, evs))
    decreases |evs|
  {
    if evs != [] { RunInTurn(Next(p, evs[0]), evs[1..]); }
  }

  /** With one thread the tasks that have returned are a prefix of those submitted, in order, and at most the next one is
      running. */
  lemma SingleWorkerRunsInOrder<T(!new)>(p: Pool<T>)
    requires Reached(p, 1)
    ensures InTurn(p) && p.started <= Jobs(p.pushed)
  {
    var evs: seq<Event<T>> :| Valid(NewPool(1), evs) && p == After(NewPool(1), evs);
    RunInTurn(NewPool(1), evs);
    StartedInOrder(p, 1);
  }

  // ----- the single-threaded executor, as an object

  lemma OneMoreJob<T>(works: seq<Work<T>>, k: nat)
    requires k < |works| && works[k].Task?
    ensures Jobs(works[..k + 1]) == Jobs(works[..k]) + [works[k].job]
  {
    PushedOne(works[..k], works[k]);
    assert works[..k] + [works[k]] == works[..k + 1];
  }

  /** The position of the first stop mark, or the length when there is none. */
  function StopIndex<T>(works: seq<Work<T>>): (k: nat)
    ensures k <= |works| && (k < |works| ==> works[k].Stop?)
    ensures forall i :: 0 <= i < k ==> works[i].Task?
  {
    if works == [] || works[0].Stop? then 0 else 1 + StopIndex(works[1..])
  }

  lemma {:induction false} StopIndexOfTasks<T>(works: seq<Work<T>>)
    requires Stops(works) == 0
    ensures StopIndex(works + [Stop]) == |works|
  {
    var k := StopIndex(works + [Stop]);
    assert (works + [Stop])[|works|] == Stop;
    if k < |works| { StopInside(works, k); }
  }

  class Executor<T(0)> {
    const queue: ConcurrentQueue<Work<T>>
    var ran: seq<T>

    constructor ()
      ensures fresh(queue) && queue.capacity == 0 && queue.queue == [] && ran == []
    {
      queue := new ConcurrentQueue(0);
      ran := [];
    }

    /** schedule: an empty runnable is ignored. */
    method Schedule(runnable: Work<T>)
      requires queue.capacity == 0
      modifies queue
      ensures queue.queue == if runnable.Stop? then old(queue.queue) else old(queue.queue) + [runnable]
    {
      if runnable.Stop? { return; }
      queue.Push(runnable);
    }

    /** The destructor: send the stop mark and let the worker run to it. */
    method Shutdown()
      requires queue.capacity == 0 && Stops(queue.queue) == 0
      modifies this, queue
      ensures ran == old(ran) + Jobs(old(queue.queue)) && queue.queue == []
    {
      ghost var works := queue.queue;
      queue.Push(Stop);
      StopIndexOfTasks(works);
      var exited := InternalLoop();
      assert (works + [Stop])[..|works|] == works;
    }

    /** internal_loop, until it exits at a stop mark or waits on the empty queue. */
    method InternalLoop() returns (exited: bool)
      modifies this, queue
      ensures var works := old(queue.queue);
              var k := StopIndex(works);
              && exited == (k < |works|)
              && ran == old(ran) + Jobs(works[..k])
              && queue.queue == if exited then works[k + 1..] else []
    {
      ghost var works := queue.queue;
      ghost var k := 0;
      while queue.queue != []
        invariant 0 <= k <= StopIndex(works) && queue.queue == works[k..]
        invariant ran == old(ran) + Jobs(works[..k])
        decreases |queue.queue|
      {
        assert works[k..][0] == works[k] && works[k..][1..] == works[k + 1..];
        var runnable := queue.Pop();
        if runnable.Stop? { return true; }
        OneMoreJob(works, k);
        ran := ran + [runnable.job];
        k := k + 1;
      }
      return false;
    }
  }
}
