/** The bounded mailbox between an inference thread and its HTTP response
    (services/stt/src/openclaw_local_stt/inference_stream.py).

    Every critical section is one atomic step.  The producer, one consuming iterator and any
    number of `close()` calls interleave freely.  Whether the deadline has passed is observed
    afresh by each checkpoint, so it is an argument of the step.
 */
module InferenceStream {
  type Bytes = seq<bv8>

  datatype Event = Output(bytes: Bytes) | Failure(bytes: Bytes)

  /** Where the inference thread is.  `Failing` holds the exception it caught. */
  datatype Producer = Absent | Producing | Failing | Cleaning | Finishing | Finished

  /** Where the iterator that started the thread is. */
  datatype Consumer = Idle | Looping | Left

  datatype Limits = Limits(maxBytes: nat, maxEvents: nat)

  /** The fields under the condition, the two threads, and the history of the run. */
  datatype State = State(
    events: seq<Event>, totalBytes: nat, totalEvents: nat,
    started: bool, done: bool, closed: bool, released: bool, cancelled: bool,
    producer: Producer, consumer: Consumer,
    appended: seq<Event>, delivered: seq<Event>, cleanups: nat, releases: nat)

  function Start(): State {
    State([], 0, 0, false, false, false, false, false, Absent, Idle, [], [], 0, 0)
  }

  /** `work.checkpoint()`: cancelled or past its deadline. */
  predicate Stopped(s: State, expired: bool) { s.cancelled || expired }

  // ----- critical sections

  function ReleaseIfFinished(s: State): State {
    if s.closed && s.done && !s.released then s.(released := true, releases := s.releases + 1) else s
  }

  predicate Fits(s: State, event: Bytes, limits: Limits) {
    s.totalEvents < limits.maxEvents && s.totalBytes + |event| <= limits.maxBytes
  }

  /** `_append`: a checkpoint or a limit that fails leaves the mailbox alone and raises. */
  function Append(s: State, event: Bytes, limits: Limits, expired: bool): State {
    if Stopped(s, expired) || !Fits(s, event, limits) then s.(producer := Failing)
    else s.(totalEvents := s.totalEvents + 1, totalBytes := s.totalBytes + |event|,
            events := s.events + [Output(event)], appended := s.appended + [Output(event)])
  }

  /** The terminal error is outside the output allowance, and only for an open response. */
  function ReportFailure(s: State, error: Bytes): State {
    var t := if s.closed then s
             else s.(events := s.events + [Failure(error)], appended := s.appended + [Failure(error)]);
    t.(producer := Cleaning)
  }

  function Finish(s: State): State {
    ReleaseIfFinished(s.(done := true, producer := Finished))
  }

  /** The opening section of `__iter__`; a thread that cannot start leaves `started` unset. */
  function Begin(s: State, threadStarts: bool): State {
    if s.closed || s.started || !threadStarts then s
    else s.(started := true, producer := Producing, consumer := Looping)
  }

  /** One turn of the consuming loop: wait again, leave, or pop the next event. */
  function Next(s: State, expired: bool): State {
    if s.events == [] && !s.done && !s.closed && !Stopped(s, expired) then s
    else if s.closed || Stopped(s, expired) || s.events == [] then s.(consumer := Left)
    else s.(events := s.events[1..], delivered := s.delivered + [s.events[0]])
  }

  function Close(s: State): State {
    if s.closed then s
    else
      var t := s.(closed := true, events := [], cancelled := s.cancelled || !s.done);
      var u := if s.started then t else t.(cleanups := t.cleanups + 1, done := true);
      ReleaseIfFinished(u)
  }

  /** `_run`'s loop: append until an append raises.  Checkpoints find the deadline gone after
      `expiresAfter` events. */
  function ProduceAll(s: State, produced: seq<Bytes>, expiresAfter: int, limits: Limits): State
    decreases |produced|
  {
    if produced == [] || s.producer != Producing then s
    else ProduceAll(Append(s, produced[0], limits, expiresAfter <= 0), produced[1..], expiresAfter - 1, limits)
  }

  function InferenceEnd(s: State, failed: bool, error: Bytes): State {
    var t := if failed then ReportFailure(s.(producer := Failing), error) else s.(producer := Cleaning);
    Finish(t.(cleanups := t.cleanups + 1, producer := Finishing))
  }

  /** `_run`: `produced` is what the generator yields, `raises` whether it then raises. */
  function InferenceRun(
    s: State, produced: seq<Bytes>, raises: bool, expiresAfter: nat, error: Bytes, limits: Limits): State
  {
    var t := ProduceAll(s, produced, expiresAfter, limits);
    InferenceEnd(t, t.producer != Producing || raises, error)
  }

  // ----- the transition system

  datatype Step =
    | Cancel                                   // the registry cancels the request
    | Iterate(threadStarts: bool)
    | Produce(event: Bytes, expired: bool)
    | ProduceRaises
    | ProduceEnds
    | Report(error: Bytes)
    | CleanUp
    | ProducerFinishes
    | Consume(expired: bool)
    | Abandon                                  // the consumer drops the iterator at a yield
    | CloseResponse

  predicate Enabled(s: State, step: Step) {
    match step
    case Produce(_, _) => s.producer == Producing
    case ProduceRaises => s.producer == Producing
    case ProduceEnds => s.producer == Producing
    case Report(_) => s.producer == Failing
    case CleanUp => s.producer == Cleaning
    case ProducerFinishes => s.producer == Finishing
    case Consume(_) => s.consumer == Looping
    case Abandon => s.consumer == Looping
    case _ => true
  }

  function Apply(s: State, step: Step, limits: Limits): State
    requires Enabled(s, step)
  {
    match step
    case Cancel => s.(cancelled := true)
    case Iterate(threadStarts) => Begin(s, threadStarts)
    case Produce(event, expired) => Append(s, event, limits, expired)
    case ProduceRaises => s.(producer := Failing)
    case ProduceEnds => s.(producer := Cleaning)
    case Report(error) => ReportFailure(s, error)
    case CleanUp => s.(cleanups := s.cleanups + 1, producer := Finishing)
    case ProducerFinishes => Finish(s)
    case Consume(expired) => Next(s, expired)
    case Abandon => s.(consumer := Left)
    case CloseResponse => Close(s)
  }

  predicate Legal(s: State, steps: seq<Step>, limits: Limits)
    decreases |steps|
  {
    steps == [] || (Enabled(s, steps[0]) && Legal(Apply(s, steps[0], limits), steps[1..], limits))
  }

  function Run(s: State, steps: seq<Step>, limits: Limits): State
    requires Legal(s, steps, limits)
    decreases |steps|
  {
    if steps == [] then s else Run(Apply(s, steps[0], limits), steps[1..], limits)
  }

  // ----- what every interleaving keeps

  function Outputs(events: seq<Event>): seq<Bytes> {
    if events == [] then []
    else (if events[0].Output? then [events[0].bytes] else []) + Outputs(events[1..])
  }

  function Size(chunks: seq<Bytes>): nat {
    if chunks == [] then 0 else Size(chunks[..|chunks| - 1]) + |chunks[|chunks| - 1]|
  }

  lemma {:induction false} OutputsConcat(a: seq<Event>, b: seq<Event>)
    ensures Outputs(a + b) == Outputs(a) + Outputs(b)
  {
    if a == [] {
      assert a + b == b;
    } else {
      assert (a + b)[1..] == a[1..] + b;
      OutputsConcat(a[1..], b);
    }
  }

  /** The producer is past its `finally`, or never began and the response is closed. */
  predicate CleanedUp(s: State) {
    s.producer == Finishing || s.producer == Finished || (s.closed && !s.started)
  }

  ghost predicate Lifecycle(s: State) {
    && (s.started <==> s.producer != Absent)
    && (s.started <==> s.consumer != Idle)
    && (s.done <==> s.producer == Finished || (s.closed && !s.started))
    && s.cleanups == (if CleanedUp(s) then 1 else 0)
    && (s.released <==> s.closed && s.done)
    && s.releases == (if s.closed && s.done then 1 else 0)
    && (s.closed && !s.done ==> s.cancelled)
  }

  ghost predicate Mailbox(s: State) {
    && s.delivered <= s.appended
    && s.events == (if s.closed then [] else s.appended[|s.delivered|..])
  }

  ghost predicate Bounded(s: State, limits: Limits) {
    && |Outputs(s.appended)| == s.totalEvents <= limits.maxEvents
    && Size(Outputs(s.appended)) == s.totalBytes <= limits.maxBytes
  }

  /** An error is the last thing appended, and only once production has ended. */
  ghost predicate ErrorLast(s: State) {
    forall i :: 0 <= i < |s.appended| && s.appended[i].Failure? ==>
      i == |s.appended| - 1 && s.producer in {Cleaning, Finishing, Finished}
  }

  ghost predicate Inv(s: State, limits: Limits) {
    Lifecycle(s) && Mailbox(s) && Bounded(s, limits) && ErrorLast(s)
  }

  lemma StepKeepsBounds(s: State, step: Step, limits: Limits)
    requires Inv(s, limits) && Enabled(s, step)
    ensures Bounded(Apply(s, step, limits), limits)
  {
    match step
    case Produce(event, _) =>
      OutputsConcat(s.appended, [Output(event)]);
      var all := Outputs(s.appended) + [event];
      assert Outputs([Output(event)]) == [event] by { assert [Output(event)][1..] == []; }
      assert all[..|all| - 1] == Outputs(s.appended);
    case Report(error) =>
      OutputsConcat(s.appended, [Failure(error)]);
      assert Outputs([Failure(error)]) == [] by { assert [Failure(error)][1..] == []; }
      assert Outputs(s.appended) + [] == Outputs(s.appended);
    case _ =>
  }

  lemma StepKeepsLifecycle(s: State, step: Step, limits: Limits)
    requires Lifecycle(s) && Enabled(s, step)
    ensures Lifecycle(Apply(s, step, limits))
  {
  }

  lemma StepKeepsMailbox(s: State, step: Step, limits: Limits)
    requires Lifecycle(s) && Mailbox(s) && ErrorLast(s) && Enabled(s, step)
    ensures Mailbox(Apply(s, step, limits)) && ErrorLast(Apply(s, step, limits))
  {
    var t := Apply(s, step, limits);
    match step
    case Produce(event, expired) =>
      assert s.closed ==> s.cancelled;
      if t.producer == Producing { assert t.appended[|s.delivered|..] == s.events + [Output(event)]; }
    case Report(error) =>
      if !s.closed { assert t.appended[|s.delivered|..] == s.events + [Failure(error)]; }
    case Consume(expired) =>
      if t.delivered != s.delivered { assert t.appended[|t.delivered|..] == s.events[1..]; }
    case _ =>
  }

  lemma StepKeepsInv(s: State, step: Step, limits: Limits)
    requires Inv(s, limits) && Enabled(s, step)
    ensures Inv(Apply(s, step, limits), limits)
  {
    StepKeepsLifecycle(s, step, limits);
    StepKeepsMailbox(s, step, limits);
    StepKeepsBounds(s, step, limits);
  }

  lemma {:induction false} RunKeepsInv(s: State, steps: seq<Step>, limits: Limits)
    requires Inv(s, limits) && Legal(s, steps, limits)
    ensures Inv(Run(s, steps, limits), limits)
    decreases |steps|
  {
    if steps != [] {
      StepKeepsInv(s, steps[0], limits);
      RunKeepsInv(Apply(s, steps[0], limits), steps[1..], limits);
    }
  }

  lemma {:induction false} PrefixOutputs(a: seq<Event>, b: seq<Event>)
    requires a <= b
    ensures Outputs(a) <= Outputs(b)
  {
    OutputsConcat(a, b[|a|..]);
    assert a + b[|a|..] == b;
  }

  /** In every interleaving: `cleanup` runs at most once, `release` runs at most once, exactly when
      the response is closed and the producer done, and never before the cleanup.  What was
      delivered is an in-order prefix of what was appended, which stays within the limits. */
  lemma EveryInterleaving(steps: seq<Step>, limits: Limits)
    requires Legal(Start(), steps, limits)
    ensures var s := Run(Start(), steps, limits);
            && s.cleanups <= 1
            && s.releases == (if s.closed && s.done then 1 else 0)
            && (s.releases == 1 ==> s.closed && s.cleanups == 1 && s.producer in {Absent, Finished})
            && s.delivered <= s.appended
            && Outputs(s.delivered) <= Outputs(s.appended)
            && |Outputs(s.appended)| <= limits.maxEvents
            && Size(Outputs(s.appended)) <= limits.maxBytes
  {
    RunKeepsInv(Start(), steps, limits);
    var s := Run(Start(), steps, limits);
    PrefixOutputs(s.delivered, s.appended);
  }

  /** Once the response is closed and no thread is left, everything has run exactly once. */
  lemma QuiescentIsReleased(steps: seq<Step>, limits: Limits)
    requires Legal(Start(), steps, limits)
    requires var s := Run(Start(), steps, limits); s.closed && s.producer in {Absent, Finished}
    ensures var s := Run(Start(), steps, limits); s.cleanups == 1 && s.releases == 1 && s.events == []
  {
    RunKeepsInv(Start(), steps, limits);
  }

  // ----- a closed response cannot be kept waiting

  predicate ByProducer(step: Step) {
    step.Produce? || step.ProduceRaises? || step.ProduceEnds? || step.Report? || step.CleanUp? ||
    step.ProducerFinishes?
  }

  function ProducerSteps(steps: seq<Step>): nat {
    if steps == [] then 0 else (if ByProducer(steps[0]) then 1 else 0) + ProducerSteps(steps[1..])
  }

  /** Steps the producer still takes once its next append must fail. */
  function StepsLeft(producer: Producer): nat {
    match producer
    case Absent => 0
    case Producing => 4
    case Failing => 3
    case Cleaning => 2
    case Finishing => 1
    case Finished => 0
  }

  /** After `close()` nothing more is appended, and the producer is done within four of its own
      steps, however the other threads interleave. */
  lemma {:induction false} ClosedProducerEnds(s: State, steps: seq<Step>, limits: Limits)
    requires Inv(s, limits) && s.closed && Legal(s, steps, limits)
    ensures var t := Run(s, steps, limits);
            && t.closed
            && t.appended == s.appended
            && t.delivered == s.delivered
            && ProducerSteps(steps) + StepsLeft(t.producer) <= StepsLeft(s.producer) <= 4
    decreases |steps|
  {
    if steps != [] {
      StepKeepsInv(s, steps[0], limits);
      ClosedProducerEnds(Apply(s, steps[0], limits), steps[1..], limits);
    }
  }

  /** So admission is given back: once closed, four producer steps are enough for the release. */
  lemma ClosedIsReleasedInTime(before: seq<Step>, after: seq<Step>, limits: Limits)
    requires Legal(Start(), before, limits)
    requires Legal(Close(Run(Start(), before, limits)), after, limits)
    requires ProducerSteps(after) >= 4
    ensures var s := Run(Close(Run(Start(), before, limits)), after, limits);
            s.releases == 1 && s.cleanups == 1
  {
    RunKeepsInv(Start(), before, limits);
    var s := Run(Start(), before, limits);
    StepKeepsInv(s, CloseResponse, limits);
    assert Apply(s, CloseResponse, limits) == Close(s);
    ClosedProducerEnds(Close(s), after, limits);
    RunKeepsInv(Close(s), after, limits);
  }

  // ----- the mailbox itself

  class Stream {
    const limits: Limits
    var events: seq<Event>
    var totalBytes: nat
    var totalEvents: nat
    var started: bool
    var done: bool
    var closed: bool
    var released: bool
    var cancelled: bool
    ghost var producer: Producer
    ghost var consumer: Consumer
    ghost var appended: seq<Event>
    ghost var delivered: seq<Event>
    ghost var cleanups: nat
    ghost var releases: nat

    ghost function Now(): State
      reads this
    {
      State(events, totalBytes, totalEvents, started, done, closed, released, cancelled,
            producer, consumer, appended, delivered, cleanups, releases)
    }

    constructor (limits: Limits)
      ensures Now() == Start() && this.limits == limits
    {
      this.limits := limits;
      events, totalBytes, totalEvents := [], 0, 0;
      started, done, closed, released, cancelled := false, false, false, false, false;
      producer, consumer, appended, delivered, cleanups, releases := Absent, Idle, [], [], 0, 0;
    }

    method ReleaseOnce()
      modifies this
      ensures Now() == ReleaseIfFinished(old(Now()))
    {
      if closed && done && !released {
        released := true;
        releases := releases + 1;
      }
    }

    /** False when `_append` raises. */
    method AppendEvent(event: Bytes, expired: bool) returns (ok: bool)
      modifies this
      ensures Now() == Append(old(Now()), event, limits, expired)
      ensures ok == (!old(cancelled) && !expired && Fits(old(Now()), event, limits))
    {
      if cancelled || expired || totalEvents >= limits.maxEvents || totalBytes + |event| > limits.maxBytes {
        producer := Failing;
        return false;
      }
      totalEvents := totalEvents + 1;
      totalBytes := totalBytes + |event|;
      events := events + [Output(event)];
      appended := appended + [Output(event)];
      return true;
    }

    method AppendFailure(error: Bytes)
      modifies this
      ensures Now() == ReportFailure(old(Now()), error)
    {
      if !closed {
        events := events + [Failure(error)];
        appended := appended + [Failure(error)];
      }
      producer := Cleaning;
    }

    method MarkDone()
      modifies this
      ensures Now() == Finish(old(Now()))
    {
      done := true;
      producer := Finished;
      ReleaseOnce();
    }

    /** What follows the loop: the exception handler, then the `finally` blocks. */
    method Conclude(failed: bool, error: Bytes)
      modifies this
      ensures Now() == InferenceEnd(old(Now()), failed, error)
    {
      if failed {
        producer := Failing;
        AppendFailure(error);
      } else {
        producer := Cleaning;
      }
      cleanups, producer := cleanups + 1, Finishing;
      MarkDone();
    }

    /** The whole inference thread on its own. */
    method RunInference(produced: seq<Bytes>, raises: bool, expiresAfter: nat, error: Bytes)
      requires producer == Producing
      modifies this
      ensures Now() == InferenceRun(old(Now()), produced, raises, expiresAfter, error, limits)
    {
      var i := 0;
      var ok := true;
      while i < |produced| && ok
        invariant 0 <= i <= |produced|
        invariant producer == if ok then Producing else Failing
        invariant ProduceAll(Now(), produced[i..], expiresAfter - i, limits) ==
                  ProduceAll(old(Now()), produced, expiresAfter, limits)
      {
        assert produced[i..][0] == produced[i] && produced[i..][1..] == produced[i + 1..];
        ok := AppendEvent(produced[i], i >= expiresAfter);
        i := i + 1;
      }
      assert produced[i..] == [] || !ok;
      Conclude(!ok || raises, error);
    }

    method TryIterate(threadStarts: bool)
      modifies this
      ensures Now() == Begin(old(Now()), threadStarts)
    {
      if !closed && !started && threadStarts {
        started := true;
        producer, consumer := Producing, Looping;
      }
    }

    /** The event to yield, if this turn of the loop pops one. */
    method PopNext(expired: bool) returns (yielded: seq<Event>)
      modifies this
      ensures Now() == Next(old(Now()), expired)
      ensures delivered == old(delivered) + yielded && |yielded| <= 1
    {
      yielded := [];
      if events == [] && !done && !closed && !cancelled && !expired {
      } else if closed || cancelled || expired || events == [] {
        consumer := Left;
      } else {
        yielded := [events[0]];
        events := events[1..];
        delivered := delivered + yielded;
      }
    }

    method CloseResponse()
      modifies this
      ensures Now() == Close(old(Now()))
    {
      if !closed {
        closed := true;
        events := [];
        if !done { cancelled := true; }
        if !started {
          cleanups := cleanups + 1;
          done := true;
        }
        ReleaseOnce();
      }
    }
  }
}
