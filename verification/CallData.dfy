/** The event protocol that serves one streaming call (src/server/call_data.h). A producer pushes responses into a
    bounded queue and sets an alarm for each; the handler thread runs proceed once per alarm and once per completed
    operation, and takes at most one item off the queue each time. */
module CallDataProtocol {

  const QUEUE_SIZE := 20

  datatype Status = Create | Write | Pending | Finish

  datatype Item = Response(body: int) | Terminal(code: int)

  /** Where the producer is: outside a call, waiting for room in the queue, between its push and its alarm, between the
      alarm of finish and the flag that finish reads for its result, or past finish. */
  datatype Producer = Rest | Waiting(item: Item) | Pushed(last: bool) | Reading | Ended

  /** What has happened to the responses so far. */
  datatype Log = Log(accepted: seq<int>, sent: seq<int>, dropped: seq<int>, codes: seq<int>)

  /** The call object, the events that are on their way to it, and the log. */
  datatype Call = Call(
    status: Status,
    rpcOk: bool,
    queue: seq<Item>,
    deleted: bool,
    alarms: nat,
    writes: nat,
    finishing: bool,
    producer: Producer,
    taken: bool,
    staleRead: bool,
    log: Log)

  function NewCall(): Call {
    Call(Create, true, [], false, 0, 0, false, Rest, false, false, Log([], [], [], []))
  }

  /** The WRITE branch of proceed on a non-empty queue. */
  function TakeHead(c: Call, ok: bool): Call
    requires c.queue != []
  {
    var rest := c.(rpcOk := ok, queue := c.queue[1..]);
    match c.queue[0]
    case Response(body) =>
      if ok then rest.(status := Pending, writes := c.writes + 1, log := c.log.(sent := c.log.sent + [body]))
      else rest.(log := c.log.(dropped := c.log.dropped + [body]))
    case Terminal(code) =>
      if ok then rest.(status := Finish, finishing := true, taken := true, log := c.log.(codes := c.log.codes + [code]))
      else rest.(taken := true, deleted := true)
  }

  /** proceed: one event reaches the call. */
  function Proceeded(c: Call, eventOk: bool): Call {
    var ok := eventOk && c.rpcOk;
    match c.status
    case Create => if ok then c.(status := Write) else c.(rpcOk := false, deleted := true)
    case Write => if c.queue == [] then c.(rpcOk := ok) else TakeHead(c, ok)
    case Pending => c.(rpcOk := ok, status := Write)
    case Finish => c.(rpcOk := ok, deleted := true)
  }

  datatype Event =
    | NewRequest(ok: bool)
    | StartWrite(body: int)
    | StartFinish(code: int)
    | Push
    | SetAlarm
    | ReadFlag
    | AlarmFires(ok: bool)
    | WriteDone(ok: bool)
    | FinishDone(ok: bool)

  /** The read at the end of finish happens whether or not the object is still there. */
  predicate Enabled(c: Call, ev: Event) {
    && (c.deleted ==> ev.ReadFlag?)
    && match ev
       case NewRequest(_) => c.status == Create
       case StartWrite(_) => c.status != Create && c.producer == Rest
       case StartFinish(_) => c.status != Create && c.producer == Rest
       case Push => c.producer.Waiting? && |c.queue| < QUEUE_SIZE
       case SetAlarm => c.producer.Pushed?
       case ReadFlag => c.producer.Reading?
       case AlarmFires(_) => c.alarms > 0
       case WriteDone(_) => c.writes > 0
       case FinishDone(_) => c.finishing
  }

  /** The events that reach the handler thread. */
  predicate Arrives(ev: Event) { ev.NewRequest? || ev.AlarmFires? || ev.WriteDone? || ev.FinishDone? }

  /** The call with the event taken off what is on its way. */
  function Consume(c: Call, ev: Event): Call
    requires Enabled(c, ev) && Arrives(ev)
  {
    match ev
    case AlarmFires(_) => c.(alarms := c.alarms - 1)
    case WriteDone(_) => c.(writes := c.writes - 1)
    case FinishDone(_) => c.(finishing := false)
    case NewRequest(_) => c
  }

  /** One step of the producer. */
  function Produce(c: Call, ev: Event): Call
    requires Enabled(c, ev) && !Arrives(ev)
  {
    match ev
    case StartWrite(body) => if c.rpcOk then c.(producer := Waiting(Response(body))) else c
    case StartFinish(code) => c.(producer := Waiting(Terminal(code)))
    case Push =>
      var item := c.producer.item;
      c.(queue := c.queue + [item], producer := Pushed(item.Terminal?),
         log := c.log.(accepted := c.log.accepted + BodyOf(item)))
    case SetAlarm => c.(alarms := c.alarms + 1, producer := if c.producer.last then Reading else Rest)
    case ReadFlag => c.(producer := Ended, staleRead := c.deleted)
  }

  function Next(c: Call, ev: Event): Call
    requires Enabled(c, ev)
  {
    if Arrives(ev) then Proceeded(Consume(c, ev), ev.ok) else Produce(c, ev)
  }

  // ----- the invariant

  function BodyOf(item: Item): seq<int> {
    match item case Response(b) => [b] case Terminal(_) => []
  }

  function Bodies(queue: seq<Item>): seq<int> {
    if queue == [] then [] else BodyOf(queue[0]) + Bodies(queue[1..])
  }

  function One(b: bool): nat { if b then 1 else 0 }

  /** Every event on its way corresponds to one queued item or to the write in progress. */
  predicate Counted(c: Call) {
    c.alarms + c.writes + One(c.producer.Pushed?) == |c.queue| + One(c.status == Pending)
  }

  predicate Closed(c: Call) { c.producer == Reading || c.producer == Ended }

  predicate Closing(c: Call) { c.producer == Pushed(true) || Closed(c) }

  /** Only the last queued item may be the terminal status, and it is there exactly when the producer is done. */
  predicate TerminalLast(c: Call) {
    && (forall i :: 0 <= i < |c.queue| - 1 ==> c.queue[i].Response?)
    && (Closing(c) <==> c.queue != [] && c.queue[|c.queue| - 1].Terminal?)
  }

  predicate EventPending(c: Call) { c.alarms + c.writes > 0 || c.finishing }

  /** What the events and the queue have to do with each other in the three stages of a call. */
  predicate Flow(c: Call) {
    && |c.queue| <= QUEUE_SIZE
    && (c.status == Create ==> c.queue == [] && !EventPending(c) && c.producer == Rest && !c.taken)
    && (c.status != Create && !c.taken ==>
          Counted(c) && TerminalLast(c) && !c.finishing && !c.deleted && c.status != Finish)
    && (c.taken ==>
          && c.queue == [] && c.alarms == c.writes == 0 && Closed(c) && c.status != Pending
          && (if c.deleted then !c.finishing else c.status == Finish && c.finishing))
  }

  /** Accepted responses are sent, dropped or queued, in order; the status code follows them all. */
  predicate Ordered(c: Call) {
    && c.log.accepted == c.log.sent + c.log.dropped + Bodies(c.queue)
    && (c.rpcOk ==> c.log.dropped == [])
    && |c.log.codes| <= 1
    && (c.log.codes != [] ==> c.log.dropped == [] && c.taken)
  }

  predicate Inv(c: Call) { Flow(c) && Ordered(c) }

  lemma {:induction false} BodiesOfPush(queue: seq<Item>, item: Item)
    ensures Bodies(queue + [item]) == Bodies(queue) + BodyOf(item)
  {
    if queue != [] {
      BodiesOfPush(queue[1..], item);
      assert (queue + [item])[1..] == queue[1..] + [item];
    } else {
      assert Bodies([item][1..]) == [];
    }
  }

  lemma TakeFlow(c: Call, ok: bool)
    requires |c.queue| <= QUEUE_SIZE && c.queue != []
    requires c.status == Write && !c.taken && !c.finishing && !c.deleted && TerminalLast(c)
    requires c.alarms + c.writes + One(c.producer.Pushed?) + 1 == |c.queue|
    ensures Flow(TakeHead(c, ok))
  {
    var c' := TakeHead(c, ok);
    if |c.queue| > 1 {
      assert c'.queue[|c'.queue| - 1] == c.queue[|c.queue| - 1];
    }
  }

  lemma Regroup(sent: seq<int>, dropped: seq<int>, body: seq<int>, rest: seq<int>)
    ensures sent + dropped + (body + rest) == sent + (dropped + body) + rest
    ensures sent + [] + (body + rest) == (sent + body) + [] + rest
  {
  }

  lemma TakeOrdered(c: Call, ok: bool)
    requires c.queue != [] && Ordered(c) && !c.taken && (ok ==> c.rpcOk)
    ensures Ordered(TakeHead(c, ok))
  {
    Regroup(c.log.sent, c.log.dropped, BodyOf(c.queue[0]), Bodies(c.queue[1..]));
    if c.queue[0].Terminal? {
      assert Bodies(c.queue) == Bodies(c.queue[1..]);
    }
  }

  lemma ProceedKeeps(c: Call, ok: bool)
    requires |c.queue| <= QUEUE_SIZE && !c.deleted && !c.taken && TerminalLast(c) && !c.finishing
    requires c.status == Write || c.status == Pending
    requires c.alarms + c.writes + One(c.producer.Pushed?) + 1 == |c.queue| + One(c.status == Pending)
    requires Ordered(c)
    ensures Inv(Proceeded(c, ok))
  {
    if c.status == Write {
      TakeFlow(c, ok && c.rpcOk);
      TakeOrdered(c, ok && c.rpcOk);
    }
  }

  lemma AppendLast(accepted: seq<int>, sent: seq<int>, dropped: seq<int>, queued: seq<int>, body: seq<int>)
    requires accepted == sent + dropped + queued
    ensures accepted + body == sent + dropped + (queued + body)
  {
  }

  lemma PushOrdered(c: Call)
    requires Ordered(c) && Enabled(c, Push)
    ensures Ordered(Produce(c, Push))
  {
    BodiesOfPush(c.queue, c.producer.item);
    AppendLast(c.log.accepted, c.log.sent, c.log.dropped, Bodies(c.queue), BodyOf(c.producer.item));
  }

  lemma PushFlow(c: Call)
    requires Flow(c) && Enabled(c, Push)
    ensures Flow(Produce(c, Push))
  {
    assert !Closing(c) && TerminalLast(c) && TerminalLast(Produce(c, Push));
  }

  lemma PushKeeps(c: Call)
    requires Inv(c) && Enabled(c, Push)
    ensures Inv(Produce(c, Push))
  {
    PushFlow(c);
    PushOrdered(c);
  }

  /** The first and the last event of a call. */
  lemma EdgeKeeps(c: Call, ev: Event)
    requires Inv(c) && Enabled(c, ev) && (ev.NewRequest? || ev.FinishDone?)
    ensures Inv(Proceeded(Consume(c, ev), ev.ok))
  {
  }

  lemma ProducerKeeps(c: Call, ev: Event)
    requires Inv(c) && Enabled(c, ev) && !Arrives(ev) && !ev.Push?
    ensures Inv(Produce(c, ev))
  {
    var c' := Produce(c, ev);
    assert c'.queue == c.queue && c'.log == c.log && c'.rpcOk == c.rpcOk && c'.taken == c.taken;
    assert Ordered(c');
  }

  lemma StepKeeps(c: Call, ev: Event)
    requires Inv(c) && Enabled(c, ev)
    ensures Inv(Next(c, ev))
  {
    if ev.AlarmFires? || ev.WriteDone? {
      ProceedKeeps(Consume(c, ev), ev.ok);
    } else if Arrives(ev) {
      EdgeKeeps(c, ev);
    } else if ev.Push? {
      PushKeeps(c);
    } else {
      ProducerKeeps(c, ev);
    }
  }

  // ----- runs

  predicate Valid(c: Call, evs: seq<Event>)
    decreases |evs|
  {
    evs == [] || (Enabled(c, evs[0]) && Valid(Next(c, evs[0]), evs[1..]))
  }

  function After(c: Call, evs: seq<Event>): Call
    requires Valid(c, evs)
    decreases |evs|
  {
    if evs == [] then c else After(Next(c, evs[0]), evs[1..])
  }

  lemma {:induction false} RunKeeps(c: Call, evs: seq<Event>)
    requires Inv(c) && Valid(c, evs)
    ensures Inv(After(c, evs))
    decreases |evs|
  {
    if evs != [] {
      StepKeeps(c, evs[0]);
      RunKeeps(Next(c, evs[0]), evs[1..]);
    }
  }

  // ----- what holds after every run of a new call

  predicate Reached(c: Call, evs: seq<Event>) { Valid(NewCall(), evs) && c == After(NewCall(), evs) }

  /** An event never finds the queue empty, and once nothing is on its way nothing is left behind. */
  lemma NothingStranded(c: Call, evs: seq<Event>)
    requires Reached(c, evs)
    ensures c.status == Write && EventPending(c) ==> c.queue != []
    ensures c.status != Create && !c.taken ==> Counted(c)
    ensures !EventPending(c) && !c.producer.Pushed? ==> c.queue == [] && c.status != Pending
  {
    RunKeeps(NewCall(), evs);
  }

  /** Responses leave in the order they were accepted; while the channel is healthy none is dropped; the terminal status
      goes out at most once and only after every accepted response. */
  lemma DeliveredInOrder(c: Call, evs: seq<Event>)
    requires Reached(c, evs)
    ensures c.log.accepted == c.log.sent + c.log.dropped + Bodies(c.queue)
    ensures c.rpcOk ==> c.log.dropped == []
    ensures |c.log.codes| <= 1
    ensures c.log.codes != [] ==> c.log.sent == c.log.accepted && Closed(c)
  {
    RunKeeps(NewCall(), evs);
  }

  /** The status codes that finish has been called with. */
  function Codes(evs: seq<Event>): set<int> { set ev <- evs | ev.StartFinish? :: ev.code }

  /** Every terminal status on its way to the client, and the one sent, is one of these. */
  predicate CodesFrom(c: Call, codes: set<int>) {
    && (forall i :: 0 <= i < |c.queue| && c.queue[i].Terminal? ==> c.queue[i].code in codes)
    && (c.producer.Waiting? && c.producer.item.Terminal? ==> c.producer.item.code in codes)
    && (forall i :: 0 <= i < |c.log.codes| ==> c.log.codes[i] in codes)
  }

  lemma TakeCodes(c: Call, ok: bool, codes: set<int>)
    requires c.queue != [] && CodesFrom(c, codes)
    ensures CodesFrom(TakeHead(c, ok), codes)
  {
    assert forall i :: 0 <= i < |c.queue| - 1 ==> c.queue[1..][i] == c.queue[i + 1];
  }

  lemma ProceedCodes(c: Call, eventOk: bool, codes: set<int>)
    requires CodesFrom(c, codes)
    ensures CodesFrom(Proceeded(c, eventOk), codes)
  {
    if c.status == Write && c.queue != [] {
      TakeCodes(c, eventOk && c.rpcOk, codes);
    } else {
      NothingTaken(c, eventOk);
      SameCodes(c, Proceeded(c, eventOk), codes);
    }
  }

  lemma NothingTaken(c: Call, eventOk: bool)
    requires c.status != Write || c.queue == []
    ensures var p := Proceeded(c, eventOk); p.queue == c.queue && p.producer == c.producer && p.log == c.log
  {
  }

  lemma SameCodes(c: Call, p: Call, codes: set<int>)
    requires CodesFrom(c, codes) && p.queue == c.queue && p.producer == c.producer && p.log == c.log
    ensures CodesFrom(p, codes)
  {
  }

  lemma MoreCodes(c: Call, codes: set<int>, more: set<int>)
    requires CodesFrom(c, codes)
    ensures CodesFrom(c, codes + more)
  {
  }

  lemma ProduceCodes(c: Call, ev: Event, codes: set<int>)
    requires Enabled(c, ev) && !Arrives(ev) && CodesFrom(c, codes) && (ev.StartFinish? ==> ev.code in codes)
    ensures CodesFrom(Produce(c, ev), codes)
  {
    var c' := Produce(c, ev);
    assert c'.log.codes == c.log.codes;
    assert ev.Push? ==> forall i :: 0 <= i < |c'.queue| ==> c'.queue[i] == if i < |c.queue| then c.queue[i] else c.producer.item;
    assert !ev.Push? ==> c'.queue == c.queue;
  }

  lemma StepCodes(c: Call, ev: Event, codes: set<int>)
    requires Enabled(c, ev) && CodesFrom(c, codes)
    ensures CodesFrom(Next(c, ev), codes + Codes([ev]))
  {
    MoreCodes(c, codes, Codes([ev]));
    if Arrives(ev) {
      ProceedCodes(Consume(c, ev), ev.ok, codes + Codes([ev]));
    } else {
      if ev.StartFinish? { assert ev in [ev] && ev.code in Codes([ev]); }
      ProduceCodes(c, ev, codes + Codes([ev]));
    }
  }

  lemma {:induction false} RunCodes(c: Call, evs: seq<Event>, codes: set<int>)
    requires Valid(c, evs) && CodesFrom(c, codes)
    ensures CodesFrom(After(c, evs), codes + Codes(evs))
    decreases |evs|
  {
    if evs != [] {
      StepCodes(c, evs[0], codes);
      RunCodes(Next(c, evs[0]), evs[1..], codes + Codes([evs[0]]));
      assert evs == [evs[0]] + evs[1..];
      assert codes + Codes([evs[0]]) + Codes(evs[1..]) == codes + Codes(evs);
    }
  }

  /** The client is told the status that finish was called with, and only that. */
  lemma StatusIsFinishs(c: Call, evs: seq<Event>)
    requires Reached(c, evs) && c.log.codes != []
    ensures exists code :: StartFinish(code) in evs && c.log.codes == [code]
  {
    RunKeeps(NewCall(), evs);
    RunCodes(NewCall(), evs, {});
    var code := c.log.codes[0];
    assert code in Codes(evs);
    assert StartFinish(code) in evs && c.log.codes == [code];
  }

  /** The channel counts as healthy exactly as long as no event has reported a failure. */
  lemma {:induction false} HealthExactly(c: Call, evs: seq<Event>)
    requires Valid(c, evs)
    ensures After(c, evs).rpcOk <==> c.rpcOk && forall i :: 0 <= i < |evs| && Arrives(evs[i]) ==> evs[i].ok
    decreases |evs|
  {
    if evs != [] {
      HealthStep(c, evs[0]);
      HealthExactly(Next(c, evs[0]), evs[1..]);
      assert forall i :: 0 < i < |evs| ==> evs[i] == evs[1..][i - 1];
    }
  }

  lemma ProceedHealth(c: Call, eventOk: bool)
    ensures Proceeded(c, eventOk).rpcOk == (c.rpcOk && eventOk)
  {
    if c.queue != [] { TakeOffers(c, eventOk && c.rpcOk); }
  }

  lemma HealthStep(c: Call, ev: Event)
    requires Enabled(c, ev)
    ensures Next(c, ev).rpcOk <==> c.rpcOk && (Arrives(ev) ==> ev.ok)
  {
    if Arrives(ev) { ProceedHealth(Consume(c, ev), ev.ok); }
  }

  /** A call whose request never came is deleted at once, and otherwise it is open for responses. */
  lemma FirstEvent(ok: bool)
    ensures Next(NewCall(), NewRequest(ok)).deleted == !ok
    ensures ok ==> Next(NewCall(), NewRequest(ok)).status == Write
  {
  }

  /** The queue takes a response or a status as long as it holds fewer than twenty. */
  lemma RoomForTwenty(c: Call)
    ensures Enabled(c, Push) <==> !c.deleted && c.producer.Waiting? && |c.queue| < 20
  {
  }

  /** A call is deleted only when no event for it is pending and its queue is empty. */
  lemma DeletedQuietly(c: Call, evs: seq<Event>)
    requires Reached(c, evs) && c.deleted
    ensures !EventPending(c) && c.queue == []
  {
    RunKeeps(NewCall(), evs);
  }

  // ----- the flag that finish reads after its alarm

  /** The producer is inside write or finish. */
  predicate Inside(p: Producer) { p.Waiting? || p.Pushed? || p.Reading? }

  predicate FinishCalled(p: Producer) {
    p == Reading || p == Ended || p == Pushed(true) || (p.Waiting? && p.item.Terminal?)
  }

  lemma {:induction false} ProducerHistory(c: Call, evs: seq<Event>)
    requires Valid(c, evs)
    ensures After(c, evs).producer == Ended <==> c.producer == Ended || ReadFlag in evs
    ensures FinishCalled(After(c, evs).producer) <==> FinishCalled(c.producer) || exists ev <- evs :: ev.StartFinish?
    decreases |evs|
  {
    if evs != [] {
      ProducerStep(c, evs[0]);
      ProducerHistory(Next(c, evs[0]), evs[1..]);
      assert evs == [evs[0]] + evs[1..];
    }
  }

  lemma ProducerStep(c: Call, ev: Event)
    requires Enabled(c, ev)
    ensures Next(c, ev).producer == Ended <==> c.producer == Ended || ev == ReadFlag
    ensures FinishCalled(Next(c, ev).producer) <==> FinishCalled(c.producer) || ev.StartFinish?
  {
    if Arrives(ev) { ProceedOffers(Consume(c, ev), ev.ok); }
  }

  /** A deleted call has a producer inside it if and only if finish was called and has not yet read the flag: the
      deletion overtook the last line of finish. */
  lemma DeletedUnderProducer(c: Call, evs: seq<Event>)
    requires Reached(c, evs) && c.deleted
    ensures Inside(c.producer) <==> (exists ev <- evs :: ev.StartFinish?) && ReadFlag !in evs
    ensures Inside(c.producer) ==> c.producer == Reading
  {
    RunKeeps(NewCall(), evs);
    ProducerHistory(NewCall(), evs);
  }

  /** A run that reads the flag of a deleted object exists for every status code, both for a healthy and a broken channel:
      the handler thread takes the alarm of finish, and the completion of the final operation if there is one, before
      finish reads the flag. */
  lemma FinishMayReadDeleted(code: int, healthy: bool) returns (evs: seq<Event>)
    ensures Valid(NewCall(), evs) && After(NewCall(), evs).deleted && After(NewCall(), evs).producer == Reading
    ensures Valid(NewCall(), evs + [ReadFlag]) && After(NewCall(), evs + [ReadFlag]).staleRead
  {
    AfterAppend(NewCall(), [], NewRequest(true));
    evs := [] + [NewRequest(true)];
    AfterAppend(NewCall(), evs, StartFinish(code));
    evs := evs + [StartFinish(code)];
    AfterAppend(NewCall(), evs, Push);
    evs := evs + [Push];
    AfterAppend(NewCall(), evs, SetAlarm);
    evs := evs + [SetAlarm];
    AfterAppend(NewCall(), evs, AlarmFires(healthy));
    evs := evs + [AlarmFires(healthy)];
    if healthy {
      AfterAppend(NewCall(), evs, FinishDone(true));
      evs := evs + [FinishDone(true)];
    }
    AfterAppend(NewCall(), evs, ReadFlag);
  }

  /** finish reads the flag of a deleted object if and only if no event for the call is on its way by then: every alarm,
      its own among them, and every operation has completed. */
  lemma ReadIsFresh(c: Call, evs: seq<Event>)
    requires Reached(c, evs) && Enabled(c, ReadFlag)
    ensures Next(c, ReadFlag).staleRead <==> !EventPending(c)
  {
    RunKeeps(NewCall(), evs);
  }

  // ----- the producer's side

  function Submitted(evs: seq<Event>): seq<int>
    decreases |evs|
  {
    if evs == [] then []
    else (if evs[0].StartWrite? then [evs[0].body] else []) + Submitted(evs[1..])
  }

  /** The response the producer is waiting to push. */
  function InPush(c: Call): seq<int> {
    if c.producer.Waiting? then BodyOf(c.producer.item) else []
  }

  function Offered(c: Call): seq<int> { c.log.accepted + InPush(c) }

  lemma {:induction false} OfferedGrows(c: Call, evs: seq<Event>)
    requires Valid(c, evs) && After(c, evs).rpcOk
    ensures c.rpcOk && Offered(After(c, evs)) == Offered(c) + Submitted(evs)
    decreases |evs|
  {
    if evs != [] {
      OfferedGrows(Next(c, evs[0]), evs[1..]);
      OfferedStep(c, evs[0]);
    }
  }

  lemma OfferedStep(c: Call, ev: Event)
    requires Enabled(c, ev) && Next(c, ev).rpcOk
    ensures c.rpcOk && Offered(Next(c, ev)) == Offered(c) + if ev.StartWrite? then [ev.body] else []
  {
    var c' := Next(c, ev);
    if Arrives(ev) {
      ProceedOffers(Consume(c, ev), ev.ok);
    } else if ev.Push? {
      assert c'.log.accepted == Offered(c) && InPush(c') == [];
    } else {
      assert c'.log.accepted == c.log.accepted;
    }
  }

  lemma ProceedOffers(c: Call, ok: bool)
    ensures Proceeded(c, ok).log.accepted == c.log.accepted && Proceeded(c, ok).producer == c.producer
    ensures Proceeded(c, ok).rpcOk ==> c.rpcOk
  {
    if c.queue != [] { TakeOffers(c, ok && c.rpcOk); }
  }

  lemma TakeOffers(c: Call, ok: bool)
    requires c.queue != []
    ensures TakeHead(c, ok).log.accepted == c.log.accepted && TakeHead(c, ok).producer == c.producer
    ensures TakeHead(c, ok).rpcOk == ok
  {
  }

  /** While the channel is healthy, what has been sent, what is queued and what is being pushed are exactly the
      responses handed to write, in that order. */
  lemma HealthyStream(c: Call, evs: seq<Event>)
    requires Reached(c, evs) && c.rpcOk
    ensures c.log.sent + Bodies(c.queue) + InPush(c) == Submitted(evs)
    ensures c.log.codes != [] ==> c.log.sent == Submitted(evs)
  {
    DeliveredInOrder(c, evs);
    OfferedGrows(NewCall(), evs);
    NothingDropped(c.log.accepted, c.log.sent, Bodies(c.queue), InPush(c), Submitted(evs));
    if c.log.codes != [] {
      RunKeeps(NewCall(), evs);
      assert c.queue == [] && InPush(c) == [];
    }
  }

  lemma NothingDropped(accepted: seq<int>, sent: seq<int>, queued: seq<int>, pushing: seq<int>, all: seq<int>)
    requires accepted == sent + [] + queued && accepted + pushing == [] + [] + all
    ensures sent + queued + pushing == all
  {
    assert sent + [] == sent && [] + [] + all == all;
  }

  // ----- progress

  predicate Delivery(ev: Event) { ev.AlarmFires? || ev.WriteDone? || ev.FinishDone? }

  function Remaining(c: Call): nat {
    One(c.producer == Reading) +
    if c.deleted then 0 else if c.taken then 1 else 2 * |c.queue| + One(c.status == Pending)
  }

  lemma DeliveryProgress(c: Call, ev: Event)
    requires Inv(c) && Enabled(c, ev) && Delivery(ev)
    ensures Remaining(Next(c, ev)) < Remaining(c)
    ensures c.status == Write ==> |Next(c, ev).queue| < |c.queue|
    ensures c.status == Pending ==> Next(c, ev).status == Write && Next(c, ev).queue == c.queue
  {
  }

  lemma BlockedStep(c: Call, ev: Event)
    requires Inv(c) && c.producer.Waiting? && !Enabled(c, Push)
    ensures !c.deleted && EventPending(c)
    ensures Enabled(c, ev) ==> Delivery(ev) && Next(c, ev).producer == c.producer
    ensures Enabled(c, ev) && c.status == Write ==> Enabled(Next(c, ev), Push)
    ensures Enabled(c, ev) && !Enabled(Next(c, ev), Push) ==> Next(c, ev).status == Write
  {
    if Enabled(c, ev) {
      StepKeeps(c, ev);
      DeliveryProgress(c, ev);
    }
  }

  /** A producer that waits on the full queue sees room after at most two events; some event is always on its way, and
      nothing but deliveries can happen meanwhile. */
  lemma BlockedProducerFreed(c: Call, evs: seq<Event>, first: Event, second: Event)
    requires Reached(c, evs) && c.producer.Waiting? && !Enabled(c, Push)
    ensures !c.deleted && EventPending(c)
    ensures Enabled(c, first) ==>
              && Delivery(first)
              && (var c1 := Next(c, first);
                  !Enabled(c1, Push) ==> EventPending(c1) && (Enabled(c1, second) ==> Enabled(Next(c1, second), Push)))
  {
    RunKeeps(NewCall(), evs);
    BlockedStep(c, first);
    if Enabled(c, first) && !Enabled(Next(c, first), Push) {
      StepKeeps(c, first);
      BlockedStep(Next(c, first), second);
    }
  }

  lemma ClosedStep(c: Call, ev: Event)
    requires Inv(c) && Closed(c) && Enabled(c, ev)
    ensures Inv(Next(c, ev)) && Closed(Next(c, ev)) && Remaining(Next(c, ev)) < Remaining(c)
  {
    StepKeeps(c, ev);
    if !ev.ReadFlag? {
      DeliveryProgress(c, ev);
      ProducerStep(c, ev);
    }
  }

  lemma ClosedGoesOn(c: Call)
    requires Inv(c) && Closed(c) && (c.deleted ==> c.producer == Reading)
    ensures Enabled(c, ReadFlag) || Enabled(c, AlarmFires(true)) || Enabled(c, WriteDone(true)) || Enabled(c, FinishDone(true))
  {
  }

  /** Once the producer has sent the terminal status, every run is shorter than the work that remains, and a run that
      cannot be continued has deleted the call and left finish. */
  lemma {:induction false} ClosedCallEnds(c: Call, more: seq<Event>)
    requires Inv(c) && Closed(c) && Valid(c, more)
    ensures |more| + Remaining(After(c, more)) <= Remaining(c)
    ensures (forall ev :: !Enabled(After(c, more), ev)) ==> After(c, more).deleted && After(c, more).producer == Ended
    decreases |more|
  {
    if more == [] {
      if !c.deleted || c.producer == Reading { ClosedGoesOn(c); }
    } else {
      ClosedStep(c, more[0]);
      ClosedCallEnds(Next(c, more[0]), more[1..]);
    }
  }

  // ----- outstanding writes

  /** A second write is started exactly when an alarm, not the completion of the write in progress, takes a response. */
  lemma SecondWriteExactly(c: Call, ev: Event)
    requires Inv(c) && Enabled(c, ev) && c.writes <= 1
    ensures Next(c, ev).writes > 1 <==>
            ev == AlarmFires(true) && c.rpcOk && c.status == Write && c.writes == 1 && c.queue[0].Response?
  {
    if c.status == Write && (ev.AlarmFires? || ev.WriteDone?) {
      StepKeeps(c, ev);
    }
  }

  /** Items handed over and not yet through: queued, or being written. */
  function InFlight(c: Call): nat { |c.queue| + c.writes }

  /** In every state of the run at most two items are in flight. */
  predicate FewInFlight(c: Call, evs: seq<Event>)
    requires Valid(c, evs)
    decreases |evs|
  {
    InFlight(c) <= 2 && (evs == [] || FewInFlight(Next(c, evs[0]), evs[1..]))
  }

  /** A producer that never has three items in flight never causes a second write; with three it may. */
  lemma {:induction false} FewInFlightOneWrite(c: Call, evs: seq<Event>)
    requires Inv(c) && c.writes <= 1 && Valid(c, evs) && FewInFlight(c, evs)
    ensures After(c, evs).writes <= 1
    decreases |evs|
  {
    if evs != [] {
      StepKeeps(c, evs[0]);
      SecondWriteExactly(c, evs[0]);
      FewInFlightOneWrite(Next(c, evs[0]), evs[1..]);
    }
  }

  lemma AfterAppend(c: Call, evs: seq<Event>, ev: Event)
    requires Valid(c, evs) && Enabled(After(c, evs), ev)
    ensures Valid(c, evs + [ev]) && After(c, evs + [ev]) == Next(After(c, evs), ev)
    decreases |evs|
  {
    if evs == [] {
      assert [ev][1..] == [];
    } else {
      assert (evs + [ev])[1..] == evs[1..] + [ev];
      AfterAppend(Next(c, evs[0]), evs[1..], ev);
    }
  }

  lemma SubmitRun(c: Call, evs: seq<Event>, body: int) returns (evs': seq<Event>)
    requires Valid(c, evs) && Enabled(After(c, evs), StartWrite(body))
    requires After(c, evs).rpcOk && |After(c, evs).queue| < QUEUE_SIZE
    ensures Valid(c, evs')
    ensures var b := After(c, evs);
            After(c, evs') == b.(queue := b.queue + [Response(body)], alarms := b.alarms + 1,
                                log := b.log.(accepted := b.log.accepted + [body]))
  {
    AfterAppend(c, evs, StartWrite(body));
    AfterAppend(c, evs + [StartWrite(body)], Push);
    AfterAppend(c, evs + [StartWrite(body)] + [Push], SetAlarm);
    evs' := evs + [StartWrite(body)] + [Push] + [SetAlarm];
  }

  /** Three responses and two early alarms leave two writes outstanding at once. */
  lemma TwoWritesOutstanding() returns (evs: seq<Event>)
    ensures Valid(NewCall(), evs) && After(NewCall(), evs).writes == 2
  {
    AfterAppend(NewCall(), [], NewRequest(true));
    evs := SubmitRun(NewCall(), [] + [NewRequest(true)], 7);
    evs := SubmitRun(NewCall(), evs, 7);
    evs := SubmitRun(NewCall(), evs, 7);
    AfterAppend(NewCall(), evs, AlarmFires(true));
    evs := evs + [AlarmFires(true)];
    AfterAppend(NewCall(), evs, AlarmFires(true));
    evs := evs + [AlarmFires(true)];
    AfterAppend(NewCall(), evs, AlarmFires(true));
    evs := evs + [AlarmFires(true)];
  }

  // ----- the object itself

  lemma QuietEnd(c: Call, ev: Event)
    requires Inv(c) && Enabled(c, ev) && Next(c, ev).deleted
    ensures !EventPending(Next(c, ev))
  {
    StepKeeps(c, ev);
  }

  /** What proceed sends to the client. */
  datatype Output = Nothing | Wrote(body: int) | Finished(code: int)

  /** The log grows by what is sent. */
  predicate Sent(before: Log, out: Output, after: Log) {
    && after.sent == before.sent + (match out case Wrote(body) => [body] case _ => [])
    && after.codes == before.codes + (match out case Finished(code) => [code] case _ => [])
  }

  /** The call object; `model` is the protocol state it is proved against. write and finish are taken apart at the points
      where another thread can come in between. */
  class CallData {
    var status: Status
    var rpcOk: bool
    var queue: seq<Item>
    ghost var model: Call

    ghost predicate Consistent()
      reads this
    {
      && model.status == status && model.rpcOk == rpcOk && model.queue == queue
      && Inv(model)
    }

    constructor ()
      ensures Consistent() && model == NewCall()
    {
      status, rpcOk, queue, model := Create, true, [], NewCall();
    }

    /** write up to its blocking push: a closed channel refuses the response. */
    method BeginWrite(body: int) returns (ok: bool)
      requires Consistent() && Enabled(model, StartWrite(body))
      modifies this`model
      ensures Consistent() && model == Next(old(model), StartWrite(body))
      ensures ok == rpcOk && ok == (model.producer == Waiting(Response(body)))
    {
      StepKeeps(model, StartWrite(body));
      model := Next(model, StartWrite(body));
      return rpcOk;
    }

    /** finish up to its blocking push: never refused. */
    method BeginFinish(code: int)
      requires Consistent() && Enabled(model, StartFinish(code))
      modifies this`model
      ensures Consistent() && model == Next(old(model), StartFinish(code)) && model.producer == Waiting(Terminal(code))
    {
      StepKeeps(model, StartFinish(code));
      model := Next(model, StartFinish(code));
    }

    /** The moment the blocking push goes through. */
    method PushItem(item: Item)
      requires Consistent() && Enabled(model, Push) && model.producer.item == item
      modifies this
      ensures Consistent() && model == Next(old(model), Push) && queue == old(queue) + [item] && |queue| <= 20
    {
      StepKeeps(model, Push);
      model := Next(model, Push);
      queue := queue + [item];
    }

    /** The alarm that follows the push. */
    method RingAlarm()
      requires Consistent() && Enabled(model, SetAlarm)
      modifies this`model
      ensures Consistent() && model == Next(old(model), SetAlarm)
    {
      StepKeeps(model, SetAlarm);
      model := Next(model, SetAlarm);
    }

    /** The last line of finish, on an object that is still there. */
    method FinishResult() returns (ok: bool)
      requires Consistent() && Enabled(model, ReadFlag) && !model.deleted
      modifies this`model
      ensures Consistent() && model == Next(old(model), ReadFlag) && ok == rpcOk && !model.staleRead
    {
      StepKeeps(model, ReadFlag);
      model := Next(model, ReadFlag);
      return rpcOk;
    }

    /** proceed: the handler thread delivers one event; `out` is what it sends to the client, and the result is false when
        the caller must delete the object. */
    method Proceed(ghost ev: Event, eventOk: bool) returns (alive: bool, out: Output)
      requires Consistent() && Enabled(model, ev) && Arrives(ev) && ev.ok == eventOk
      modifies this
      ensures Consistent() && model == Next(old(model), ev)
      ensures alive <==> !model.deleted
      ensures !alive ==> !EventPending(model)
      ensures Sent(old(model).log, out, model.log)
      ensures !eventOk ==> !rpcOk && out == Nothing
    {
      StepKeeps(model, ev);
      if Next(model, ev).deleted { QuietEnd(model, ev); }
      alive, out := Dispatch(Consume(model, ev), eventOk);
      model := Next(model, ev);
    }

    /** The body of proceed, for a call c that the event has been taken from. */
    method Dispatch(ghost c: Call, eventOk: bool) returns (alive: bool, out: Output)
      requires c.status == status && c.rpcOk == rpcOk && c.queue == queue && !c.deleted
      modifies this`status, this`rpcOk, this`queue
      ensures var p := Proceeded(c, eventOk);
              && p.status == status && p.rpcOk == rpcOk && p.queue == queue && p.deleted == !alive
              && Sent(c.log, out, p.log)
      ensures !eventOk ==> !rpcOk && out == Nothing
    {
      if !eventOk { rpcOk := false; }
      var ok := eventOk && rpcOk;
      alive, out := true, Nothing;
      if status == Create {
        if ok { status := Write; } else { alive := false; }
      } else if status == Write {
        if queue != [] { alive, out := TakeOne(c, ok); }
      } else if status == Pending {
        status := Write;
      } else {
        alive := false;
      }
    }

    /** The WRITE branch: read one item off the queue and send it, drop it, or end the call. */
    method TakeOne(ghost c: Call, ok: bool) returns (alive: bool, out: Output)
      requires c.status == status == Write && c.queue == queue != [] && !c.deleted
      modifies this`status, this`queue
      ensures TakeHead(c, ok).status == status && TakeHead(c, ok).queue == queue && TakeHead(c, ok).deleted == !alive
      ensures Sent(c.log, out, TakeHead(c, ok).log)
      ensures out == if !ok then Nothing
                     else match c.queue[0] case Response(body) => Wrote(body) case Terminal(code) => Finished(code)
    {
      var head := queue[0];
      queue := queue[1..];
      alive, out := true, Nothing;
      if head.Response? {
        if ok {
          status := Pending;
          out := Wrote(head.body);
        }
      } else if ok {
        status := Finish;
        out := Finished(head.code);
      } else {
        alive := false;
      }
    }
  }
}
