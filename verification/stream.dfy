/**
 * The streaming endpoint's event generator: a background task runs the
 * workflow and puts its events on a bounded queue, while the generator loop
 * forwards queued events to the client, sends a keep-alive every 30 seconds
 * without drift, gives up after 600 seconds, and stops when the client goes
 * away; whatever is still queued when the loop ends is drained.
 *
 * Concurrency is an input: each loop iteration is a `Tick` saying what the
 * event-loop clock read, whether the client had disconnected, and how many
 * steps the background task took before the iteration and while it waited for
 * the queue. The background task's events are its `script`; it marks itself
 * complete right after putting the last one.
 */
module Stream {
  import opened Outcomes
  import opened JsonValue
  import opened Models
  import opened Exceptions
  import opened Events
  import opened Server

  /** What the generator yields: a queued event, a keep-alive comment, or the timeout error. */
  datatype Emit = Sent(event: SseEvent) | KeepAliveFrame | TimeoutFrame

  datatype Status = Running | Completed | TimedOut | Disconnected

  datatype Tick = Tick(now: real, disconnected: bool, stepsBefore: nat, stepsDuringWait: nat)

  datatype LoopState = LoopState(
    start: real,
    nextHeartbeat: real,
    pending: seq<SseEvent>,
    queue: seq<SseEvent>,
    complete: bool,
    emitted: seq<Emit>,
    status: Status,
    latest: real)

  const TimeoutMessage: string := "Research timeout - workflow exceeded 10 minutes"

  /** The error event sent when the stream exceeds its maximum duration. */
  function TimeoutEvent(): (e: SseEvent)
    ensures e.kind == Error && e.data.Keys == {"error", "error_type", "phase"}
    ensures e.data["error_type"] == JStr("TimeoutError") && e.data["phase"] == JStr("timeout")
  {
    NewError(TimeoutMessage, "TimeoutError", "timeout")
  }

  /** The wire text of one yield. */
  function EmitText(x: Emit, dumps: Json -> string): string {
    match x
    case Sent(e) => Format(e, dumps)
    case KeepAliveFrame => ": keepalive\n\n"
    case TimeoutFrame => Format(TimeoutEvent(), dumps)
  }

  /** The loop's literal keep-alive is exactly what a heartbeat event formats as. */
  lemma KeepAliveIsHeartbeat(dumps: Json -> string)
    ensures EmitText(KeepAliveFrame, dumps) == Format(NewHeartbeat(), dumps)
    ensures EmitText(KeepAliveFrame, dumps)[0] == ':'
  {
  }

  // ---------------------------------------------------------------------------
  // Reading back what was yielded
  // ---------------------------------------------------------------------------

  /** The queued events among the yields, in order. */
  function Forwarded(xs: seq<Emit>): (r: seq<SseEvent>)
    ensures |r| <= |xs|
  {
    if |xs| == 0 then []
    else Forwarded(xs[..|xs| - 1]) + (if xs[|xs| - 1].Sent? then [xs[|xs| - 1].event] else [])
  }

  function KeepAlives(xs: seq<Emit>): nat {
    if |xs| == 0 then 0 else KeepAlives(xs[..|xs| - 1]) + (if xs[|xs| - 1].KeepAliveFrame? then 1 else 0)
  }

  function Timeouts(xs: seq<Emit>): nat {
    if |xs| == 0 then 0 else Timeouts(xs[..|xs| - 1]) + (if xs[|xs| - 1].TimeoutFrame? then 1 else 0)
  }

  lemma AppendOne(xs: seq<Emit>, x: Emit)
    ensures Forwarded(xs + [x]) == Forwarded(xs) + (if x.Sent? then [x.event] else [])
    ensures KeepAlives(xs + [x]) == KeepAlives(xs) + (if x.KeepAliveFrame? then 1 else 0)
    ensures Timeouts(xs + [x]) == Timeouts(xs) + (if x.TimeoutFrame? then 1 else 0)
  {
    assert (xs + [x])[..|xs|] == xs;
  }

  /** Each queued event sent in turn. */
  function SendAll(q: seq<SseEvent>): (r: seq<Emit>)
    ensures |r| == |q|
    ensures forall i :: 0 <= i < |q| ==> r[i] == Sent(q[i])
  {
    seq(|q|, i requires 0 <= i < |q| => Sent(q[i]))
  }

  lemma {:induction false} AppendSendAll(xs: seq<Emit>, q: seq<SseEvent>)
    ensures Forwarded(xs + SendAll(q)) == Forwarded(xs) + q
    ensures KeepAlives(xs + SendAll(q)) == KeepAlives(xs)
    ensures Timeouts(xs + SendAll(q)) == Timeouts(xs)
    decreases |q|
  {
    if |q| == 0 {
      assert xs + SendAll(q) == xs;
    } else {
      var front := q[..|q| - 1];
      AppendSendAll(xs, front);
      assert xs + SendAll(q) == (xs + SendAll(front)) + [Sent(q[|q| - 1])];
      AppendOne(xs + SendAll(front), Sent(q[|q| - 1]));
      assert front + [q[|q| - 1]] == q;
    }
  }

  // ---------------------------------------------------------------------------
  // The loop
  // ---------------------------------------------------------------------------

  function Initial(start: real, script: seq<SseEvent>): LoopState {
    LoopState(start, start + HeartbeatInterval as real, script, [], false, [], Running, start)
  }

  /**
   * `steps` steps of the background task: each puts its next event, unless the
   * queue is full (the put then waits); after its last event the task is complete.
   */
  function Produce(s: LoopState, steps: nat): (r: LoopState)
    requires |s.queue| <= MaxQueueSize
    ensures |r.queue| <= MaxQueueSize
    ensures r.queue + r.pending == s.queue + s.pending
    ensures r.complete <==> s.complete || (steps > 0 && |r.pending| == 0)
    ensures r == s.(queue := r.queue, pending := r.pending, complete := r.complete)
  {
    var put := PutCount(|s.queue|, |s.pending|, steps);
    MoveFront(s.queue, s.pending, put);
    s.(queue := s.queue + s.pending[..put], pending := s.pending[put..],
       complete := s.complete || (steps > 0 && put == |s.pending|))
  }

  /** How many of the task's next events fit: no more than its steps, its events left, or the queue's room. */
  function PutCount(queued: nat, pending: nat, steps: nat): (put: nat)
    requires queued <= MaxQueueSize
    ensures put <= pending && queued + put <= MaxQueueSize
  {
    var room := MaxQueueSize - queued;
    var n := if steps < pending then steps else pending;
    if n < room then n else room
  }

  /** Moving the first `k` pending events onto the queue keeps their combined order. */
  lemma MoveFront(queue: seq<SseEvent>, pending: seq<SseEvent>, k: nat)
    requires k <= |pending|
    ensures (queue + pending[..k]) + pending[k..] == queue + pending
  {
    assert pending[..k] + pending[k..] == pending;
  }

  function Emit1(s: LoopState, x: Emit): LoopState {
    s.(emitted := s.emitted + [x])
  }

  /** The top of an iteration: the task's steps so far, and the clock reading. */
  function Observe(s: LoopState, t: Tick): (r: LoopState)
    requires |s.queue| <= MaxQueueSize
    ensures |r.queue| <= MaxQueueSize
  {
    Produce(s, t.stepsBefore).(latest := if t.now > s.latest then t.now else s.latest)
  }

  /** A keep-alive when one is due; the next is due one interval later, however late this one was. */
  function Heartbeat(s: LoopState, now: real): LoopState {
    if now >= s.nextHeartbeat
    then Emit1(s, KeepAliveFrame).(nextHeartbeat := s.nextHeartbeat + HeartbeatInterval as real)
    else s
  }

  /** Waiting briefly for the next queued event, and forwarding it if there is one. */
  function Dequeue(s: LoopState, steps: nat): (r: LoopState)
    requires |s.queue| <= MaxQueueSize
    ensures |r.queue| <= MaxQueueSize
  {
    var s1 := Produce(s, steps);
    if |s1.queue| > 0 then Emit1(s1, Sent(s1.queue[0])).(queue := s1.queue[1..]) else s1
  }

  /** One pass of the loop body: completion check, timeout, disconnect, heartbeat, queue read. */
  function Step(s: LoopState, t: Tick): (r: LoopState)
    requires s.status == Running && |s.queue| <= MaxQueueSize
    ensures |r.queue| <= MaxQueueSize
    ensures r.start == s.start
  {
    var s1 := Observe(s, t);
    if s1.complete then s1.(status := Completed)
    else if t.now - s.start > MaxDuration as real then Emit1(s1, TimeoutFrame).(status := TimedOut)
    else if t.disconnected then s1.(status := Disconnected)
    else Dequeue(Heartbeat(s1, t.now), t.stepsDuringWait)
  }

  /** Iterations until the loop exits or the ticks run out. */
  function Run(s: LoopState, ticks: seq<Tick>): (r: LoopState)
    requires |s.queue| <= MaxQueueSize
    ensures |r.queue| <= MaxQueueSize
    ensures r.start == s.start
    decreases |ticks|
  {
    if s.status != Running || |ticks| == 0 then s else Run(Step(s, ticks[0]), ticks[1..])
  }

  /** After the loop exits, everything left in the queue is yielded. */
  function Drain(s: LoopState): LoopState {
    if s.status == Running then s else s.(emitted := s.emitted + SendAll(s.queue), queue := [])
  }

  /** `event_generator`: the yields of the loop and the drain, in order. */
  function EventGenerator(start: real, script: seq<SseEvent>, ticks: seq<Tick>): LoopState {
    Drain(Run(Initial(start, script), ticks))
  }

  // ---------------------------------------------------------------------------
  // What the loop keeps true
  // ---------------------------------------------------------------------------

  /**
   * Forwarded events, then the queue, then what the task has yet to put, are
   * the script in order; the next heartbeat is due one interval after the
   * last one was due; at most one timeout, and only in the timed-out state.
   */
  ghost predicate Inv(s: LoopState, script: seq<SseEvent>) {
    && Forwarded(s.emitted) + s.queue + s.pending == script
    && |s.queue| <= MaxQueueSize
    && s.nextHeartbeat == s.start + (HeartbeatInterval * (KeepAlives(s.emitted) + 1)) as real
    && (HeartbeatInterval * KeepAlives(s.emitted)) as real <= s.latest - s.start
    && (s.complete ==> |s.pending| == 0)
    && (s.status == Completed ==> s.complete)
    && (s.status == TimedOut <==> Timeouts(s.emitted) == 1)
    && Timeouts(s.emitted) <= 1
    && (s.status == TimedOut ==> s.latest - s.start > MaxDuration as real)
  }

  lemma InitialInv(start: real, script: seq<SseEvent>)
    ensures Inv(Initial(start, script), script)
  {
  }

  lemma ProduceInv(s: LoopState, steps: nat, script: seq<SseEvent>)
    requires Inv(s, script)
    ensures Inv(Produce(s, steps), script)
  {
    var r := Produce(s, steps);
    assert Forwarded(r.emitted) + r.queue + r.pending == Forwarded(s.emitted) + (r.queue + r.pending);
  }

  lemma ObserveInv(s: LoopState, t: Tick, script: seq<SseEvent>)
    requires Inv(s, script)
    ensures Inv(Observe(s, t), script)
    ensures Observe(s, t).latest >= t.now
  {
    ProduceInv(s, t.stepsBefore, script);
  }

  lemma HeartbeatInv(s: LoopState, now: real, script: seq<SseEvent>)
    requires Inv(s, script) && s.latest >= now && s.status == Running
    ensures Inv(Heartbeat(s, now), script)
  {
    if now >= s.nextHeartbeat {
      AppendOne(s.emitted, KeepAliveFrame);
    }
  }

  lemma DequeueInv(s: LoopState, steps: nat, script: seq<SseEvent>)
    requires Inv(s, script) && s.status == Running
    ensures Inv(Dequeue(s, steps), script)
  {
    ProduceInv(s, steps, script);
    var s1 := Produce(s, steps);
    if |s1.queue| > 0 {
      ForwardInv(s1, script);
    }
  }

  /** Moving the head of the queue to the client keeps the invariant. */
  lemma ForwardInv(s: LoopState, script: seq<SseEvent>)
    requires Inv(s, script) && s.status == Running && |s.queue| > 0
    ensures Inv(Emit1(s, Sent(s.queue[0])).(queue := s.queue[1..]), script)
  {
    var r := Emit1(s, Sent(s.queue[0])).(queue := s.queue[1..]);
    AppendOne(s.emitted, Sent(s.queue[0]));
    assert Forwarded(r.emitted) == Forwarded(s.emitted) + [s.queue[0]];
    assert KeepAlives(r.emitted) == KeepAlives(s.emitted);
    assert Timeouts(r.emitted) == Timeouts(s.emitted);
    assert Forwarded(r.emitted) + r.queue == Forwarded(s.emitted) + s.queue by {
      assert [s.queue[0]] + s.queue[1..] == s.queue;
    }
  }

  lemma TimeoutInv(s: LoopState, script: seq<SseEvent>)
    requires Inv(s, script) && s.status == Running && s.latest - s.start > MaxDuration as real
    ensures Inv(Emit1(s, TimeoutFrame).(status := TimedOut), script)
  {
    AppendOne(s.emitted, TimeoutFrame);
  }

  lemma StepInv(s: LoopState, t: Tick, script: seq<SseEvent>)
    requires Inv(s, script) && s.status == Running
    ensures Inv(Step(s, t), script)
  {
    ObserveInv(s, t, script);
    var s1 := Observe(s, t);
    if s1.complete {
    } else if t.now - s.start > MaxDuration as real {
      TimeoutInv(s1, script);
    } else if t.disconnected {
    } else {
      HeartbeatInv(s1, t.now, script);
      DequeueInv(Heartbeat(s1, t.now), t.stepsDuringWait, script);
    }
  }

  lemma {:induction false} RunInv(s: LoopState, ticks: seq<Tick>, script: seq<SseEvent>)
    requires Inv(s, script)
    ensures Inv(Run(s, ticks), script)
    decreases |ticks|
  {
    if s.status == Running && |ticks| > 0 {
      StepInv(s, ticks[0], script);
      RunInv(Step(s, ticks[0]), ticks[1..], script);
    }
  }

  /**
   * Each pass of the loop, branch by branch: completion ends it quietly; past
   * the maximum duration the timeout error is the only yield, whether or not
   * the client is still there; a disconnect ends it with no yield; otherwise a
   * due keep-alive comes first, the next queued event (if any) follows, and the
   * loop goes on.
   */
  lemma StepBranches(s: LoopState, t: Tick)
    requires s.status == Running && |s.queue| <= MaxQueueSize
    ensures var o := Observe(s, t);
            o.complete ==> Step(s, t).status == Completed && Step(s, t).emitted == o.emitted
    ensures var o := Observe(s, t);
            !o.complete && t.now - s.start > MaxDuration as real ==>
              Step(s, t).status == TimedOut && Step(s, t).emitted == o.emitted + [TimeoutFrame]
    ensures var o := Observe(s, t);
            !o.complete && t.now - s.start <= MaxDuration as real && t.disconnected ==>
              Step(s, t).status == Disconnected && Step(s, t).emitted == o.emitted
    ensures var o := Observe(s, t);
            !o.complete && t.now - s.start <= MaxDuration as real && !t.disconnected ==>
              Step(s, t).status == Running
              && (t.now >= s.nextHeartbeat ==>
                    o.emitted + [KeepAliveFrame] <= Step(s, t).emitted
                    && Step(s, t).nextHeartbeat == s.nextHeartbeat + HeartbeatInterval as real)
              && (t.now < s.nextHeartbeat ==>
                    o.emitted <= Step(s, t).emitted && Step(s, t).nextHeartbeat == s.nextHeartbeat)
              && (|o.queue| > 0 ==> Step(s, t).emitted[|Step(s, t).emitted| - 1] == Sent(o.queue[0]))
  {
    var o := Observe(s, t);
    if !o.complete && t.now - s.start <= MaxDuration as real && !t.disconnected {
      var h := Heartbeat(o, t.now);
      assert h.queue == o.queue;
      var d := Produce(h, t.stepsDuringWait);
      assert d.queue == h.queue + h.pending[..|d.queue| - |h.queue|];
      if |d.queue| > 0 {
        PrefixOfConcat(h.emitted, [Sent(d.queue[0])]);
      }
      if |o.queue| > 0 {
        assert d.queue[0] == o.queue[0];
      }
      PrefixOfConcat(o.emitted, [KeepAliveFrame]);
    }
  }

  /** The loop cannot outlive the maximum duration: the first tick past it, if any, ends the loop. */
  lemma {:induction false} RunEndsPastDeadline(s: LoopState, ticks: seq<Tick>)
    requires |s.queue| <= MaxQueueSize
    requires exists i :: 0 <= i < |ticks| && ticks[i].now - s.start > MaxDuration as real
    ensures Run(s, ticks).status != Running
    decreases |ticks|
  {
    if s.status == Running {
      var s1 := Step(s, ticks[0]);
      if ticks[0].now - s.start > MaxDuration as real {
        StepBranches(s, ticks[0]);
        assert s1.status != Running;
      } else {
        var i :| 0 <= i < |ticks| && ticks[i].now - s.start > MaxDuration as real;
        assert ticks[1..][i - 1] == ticks[i];
        RunEndsPastDeadline(s1, ticks[1..]);
      }
    }
  }

  /**
   * What the client receives: the workflow's events in the order they were
   * queued, none twice and none skipped, with all of them once the task has
   * completed; keep-alives no more often than one per 30 seconds of the
   * latest clock reading; and one timeout error exactly when the stream gave up,
   * which it does only past 600 seconds and always by the first tick past them.
   */
  lemma EventGeneratorSpec(start: real, script: seq<SseEvent>, ticks: seq<Tick>)
    ensures var s := EventGenerator(start, script, ticks);
            && Forwarded(s.emitted) <= script
            && (s.status == Completed ==> Forwarded(s.emitted) == script)
            && (HeartbeatInterval * KeepAlives(s.emitted)) as real <= s.latest - start
            && (s.status == TimedOut <==> Timeouts(s.emitted) == 1)
            && (s.status == TimedOut ==> s.latest - start > MaxDuration as real)
            && (s.status != Running ==> |s.queue| == 0)
    ensures (exists i :: 0 <= i < |ticks| && ticks[i].now - start > MaxDuration as real) ==>
              EventGenerator(start, script, ticks).status != Running
  {
    InitialInv(start, script);
    var r := Run(Initial(start, script), ticks);
    if exists i :: 0 <= i < |ticks| && ticks[i].now - start > MaxDuration as real {
      RunEndsPastDeadline(Initial(start, script), ticks);
    }
    RunInv(Initial(start, script), ticks, script);
    DrainForwards(r, script);
    DrainKeepsCounts(r);
  }

  /** The drain forwards everything still queued: the client has a prefix of the script, all of it on completion. */
  lemma DrainForwards(r: LoopState, script: seq<SseEvent>)
    requires Forwarded(r.emitted) + r.queue + r.pending == script
    requires r.status == Completed ==> |r.pending| == 0
    ensures Forwarded(Drain(r).emitted) <= script
    ensures r.status == Completed ==> Forwarded(Drain(r).emitted) == script
    ensures r.status != Running ==> |Drain(r).queue| == 0
  {
    var sent := Forwarded(r.emitted);
    if r.status != Running {
      AppendSendAll(r.emitted, r.queue);
      assert Drain(r).emitted == r.emitted + SendAll(r.queue);
      PrefixOfConcat(sent + r.queue, r.pending);
    } else {
      assert sent + r.queue + r.pending == sent + (r.queue + r.pending);
      PrefixOfConcat(sent, r.queue + r.pending);
    }
  }

  /** Draining adds no keep-alive and no timeout frame. */
  lemma DrainKeepsCounts(r: LoopState)
    ensures KeepAlives(Drain(r).emitted) == KeepAlives(r.emitted)
    ensures Timeouts(Drain(r).emitted) == Timeouts(r.emitted)
    ensures Drain(r).status == r.status && Drain(r).latest == r.latest && Drain(r).start == r.start
  {
    if r.status != Running {
      AppendSendAll(r.emitted, r.queue);
    }
  }

  lemma PrefixOfConcat<T>(a: seq<T>, b: seq<T>)
    ensures a <= a + b
  {
  }

  // ---------------------------------------------------------------------------
  // What the background task puts on the queue
  // ---------------------------------------------------------------------------

  /**
   * The text of the `TypeError` Python raises when the workflow is called with
   * a keyword it does not declare.
   */
  const CallbackTypeError: string := "run_research_workflow() got an unexpected keyword argument 'event_callback'"

  /**
   * `run_workflow_task` as written: it passes `event_callback=` to a workflow
   * whose signature has no such parameter, so the call raises before any phase
   * runs and the task only ever queues the resulting error event.
   */
  function TaskScriptAsWritten(query: string): (script: seq<SseEvent>)
    ensures |script| == 1 && script[0].kind == Error
  {
    [StreamErrorEvent(Other("TypeError", CallbackTypeError))]
  }

  /**
   * `run_workflow_task` calling the workflow with the query alone: a complete
   * event with the dumped result, or an error event with the safe message.
   */
  function TaskScript(outcome: Result<ResearchResult, Failure>): (script: seq<SseEvent>)
    ensures |script| == 1
    ensures outcome.Ok? ==> script[0] == NewComplete(ResultToJson(outcome.value).fields)
    ensures outcome.Err? ==> script[0] == StreamErrorEvent(outcome.error)
  {
    match outcome
    case Ok(result) => [NewComplete(ResultToJson(result).fields)]
    case Err(f) => [StreamErrorEvent(f)]
  }

  /**
   * As written, a stream that runs to completion delivers one event, an error
   * of type `TypeError` with the generic message, whatever the query and
   * whatever the agents would have returned; it never delivers a result.
   */
  lemma StreamAsWrittenNeverCompletes(query: string, start: real, ticks: seq<Tick>)
    ensures var s := EventGenerator(start, TaskScriptAsWritten(query), ticks);
            s.status == Completed ==> Forwarded(s.emitted) == TaskScriptAsWritten(query)
    ensures TaskScriptAsWritten(query)[0].data["error_type"] == JStr("TypeError")
    ensures TaskScriptAsWritten(query)[0].data["error"] == JStr(GenericDetail)
    ensures forall e :: e in Forwarded(EventGenerator(start, TaskScriptAsWritten(query), ticks).emitted) ==>
              e.kind == Error
  {
    var script := TaskScriptAsWritten(query);
    EventGeneratorSpec(start, script, ticks);
    var f := Forwarded(EventGenerator(start, script, ticks).emitted);
    assert f <= script;
    forall e | e in f ensures e.kind == Error {
      var i :| 0 <= i < |f| && f[i] == e;
      assert f[i] == script[i];
    }
  }

  /**
   * With the workflow called as it is declared, a completed stream delivers the
   * workflow's result as a complete event when it succeeds, and its safe error
   * otherwise.
   */
  lemma StreamDeliversOutcome(outcome: Result<ResearchResult, Failure>, start: real, ticks: seq<Tick>)
    ensures var s := EventGenerator(start, TaskScript(outcome), ticks);
            s.status == Completed ==> Forwarded(s.emitted) == TaskScript(outcome)
    ensures outcome.Ok? ==> TaskScript(outcome)[0].kind == Complete
    ensures outcome.Err? ==>
              TaskScript(outcome)[0].data["error"] == JStr(SafeMessage(FailureTypeName(outcome.error)))
  {
    EventGeneratorSpec(start, TaskScript(outcome), ticks);
  }
}
