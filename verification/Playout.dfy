/** The local playout pump: one owner of source submission, reversible gates and
    generation changes (services/matrix-rtc-media/src/playout.rs).

    Every `select!` branch is one atomic event.  Instants and durations are
    integers in nanoseconds.
 */
module Playout {
  import opened Wrappers

  type Bytes = seq<bv8>

  const FRAME_PERIOD := 10_000_000
  const CAPTURE_TIMEOUT := 2_000_000_000

  datatype Gate = Normal | Duck | Paused

  datatype Frame = Frame(generation: nat, bytes: Bytes)

  /** What became of a frame that matched the generation when it was received. */
  datatype Fate = Captured | Dropped | Waiting

  /** One submission to the native source, with the instants that pace it. */
  datatype Capture = Capture(frame: Frame, gate: Gate, scheduled: int, started: int, completed: int)

  datatype Status = Running | Finished | Failed

  datatype Event =
    | Clear(next: nat)
    | SetGate(gate: Gate, at: int)
    | Receive(frame: Frame, at: int)
    | OutputEnded
    | ControlEnded
    | Submit(started: int, completed: int, accepted: bool)

  /** The pump's variables, followed by the history of the run. */
  datatype State = State(
    generation: nat, gate: Gate, pending: Option<Bytes>, nextCaptureAt: int, status: Status,
    clock: int, accepted: seq<Frame>, fates: seq<Fate>, captures: seq<Capture>, clears: nat)

  function Start(now: int): State {
    State(0, Normal, None, now, Running, now, [], [], [], 0)
  }

  function Max(a: int, b: int): int { if a < b then b else a }

  /** The instant the frame is taken to have started at: a whole missed tick rebases it. */
  function FrameStart(scheduled: int, started: int): int {
    if started >= scheduled + FRAME_PERIOD then started else scheduled
  }

  function NextCaptureDeadline(scheduled: int, started: int, completed: int): int {
    Max(FrameStart(scheduled, started) + FRAME_PERIOD, completed)
  }

  /** The guards of the `select!` branches, and a clock that never runs backwards. */
  predicate Enabled(s: State, e: Event) {
    && s.status == Running
    && match e
       case Clear(_) => true
       case SetGate(_, at) => s.clock <= at
       case Receive(_, at) => s.pending.None? && s.clock <= at
       case OutputEnded => s.pending.None?
       case ControlEnded => true
       case Submit(started, completed, _) =>
         s.pending.Some? && s.gate != Paused && s.clock <= started <= completed && s.nextCaptureAt <= started
  }

  function Step(s: State, e: Event): State
    requires Enabled(s, e)
  {
    match e
    case Clear(next) =>
      if next <= s.generation then s
      else s.(generation := next, pending := None, clears := s.clears + 1,
              fates := if s.pending.Some? && s.fates != [] then s.fates[|s.fates| - 1 := Dropped] else s.fates)
    case SetGate(next, at) =>
      s.(gate := next, clock := at,
         nextCaptureAt := if s.gate == Paused && next != Paused then at else s.nextCaptureAt)
    case Receive(frame, at) =>
      if frame.generation != s.generation then s.(clock := at)
      else s.(clock := at, pending := Some(frame.bytes),
              nextCaptureAt := if at >= s.nextCaptureAt + FRAME_PERIOD then at else s.nextCaptureAt,
              accepted := s.accepted + [frame], fates := s.fates + [Waiting])
    case OutputEnded => s.(status := Finished)
    case ControlEnded => s.(status := Failed)
    case Submit(started, completed, ok) =>
      var submitted := s.(
        pending := None, clock := completed,
        fates := if s.fates != [] then s.fates[|s.fates| - 1 := Captured] else s.fates,
        captures := s.captures +
                    [Capture(Frame(s.generation, s.pending.value), s.gate, s.nextCaptureAt, started, completed)]);
      if !ok || completed - started > CAPTURE_TIMEOUT then submitted.(status := Failed)
      else submitted.(nextCaptureAt := NextCaptureDeadline(s.nextCaptureAt, started, completed))
  }

  predicate Legal(s: State, events: seq<Event>)
    decreases |events|
  {
    events == [] || (Enabled(s, events[0]) && Legal(Step(s, events[0]), events[1..]))
  }

  function Run(s: State, events: seq<Event>): State
    requires Legal(s, events)
    decreases |events|
  {
    if events == [] then s else Run(Step(s, events[0]), events[1..])
  }

  // ----- what the run is measured against: functions of the events alone

  /** The received frames that match the generation in force on receipt. */
  function Matching(generation: nat, events: seq<Event>): seq<Frame>
    decreases |events|
  {
    if events == [] then []
    else match events[0]
      case Clear(next) => Matching(if next > generation then next else generation, events[1..])
      case Receive(frame, _) =>
        (if frame.generation == generation then [frame] else []) + Matching(generation, events[1..])
      case _ => Matching(generation, events[1..])
  }

  /** How many `Clear` commands are accepted. */
  function AcceptedClears(generation: nat, events: seq<Event>): nat
    decreases |events|
  {
    if events == [] then 0
    else if events[0].Clear? && events[0].next > generation
    then 1 + AcceptedClears(events[0].next, events[1..])
    else AcceptedClears(generation, events[1..])
  }

  function Kept(frames: seq<Frame>, fates: seq<Fate>): seq<Frame>
    requires |frames| == |fates|
  {
    if frames == [] then []
    else Kept(frames[..|frames| - 1], fates[..|fates| - 1]) +
         if fates[|fates| - 1] == Captured then [frames[|frames| - 1]] else []
  }

  function CountDropped(fates: seq<Fate>): nat {
    if fates == [] then 0
    else CountDropped(fates[..|fates| - 1]) + if fates[|fates| - 1] == Dropped then 1 else 0
  }

  function Frames(captures: seq<Capture>): seq<Frame> {
    seq(|captures|, i requires 0 <= i < |captures| => captures[i].frame)
  }

  // ----- conservation

  /** The frame that waits is the last one accepted, and only it has no fate yet. */
  ghost predicate Tracked(s: State) {
    && |s.fates| == |s.accepted|
    && (forall i :: 0 <= i < |s.fates| ==> (s.fates[i] == Waiting <==> s.pending.Some? && i == |s.fates| - 1))
    && (s.pending.Some? ==>
          && s.accepted != []
          && s.accepted[|s.accepted| - 1] == Frame(s.generation, s.pending.value))
  }

  ghost predicate InGenerationOrder(s: State)
    requires |s.fates| == |s.accepted|
  {
    && (forall i :: 0 <= i < |s.accepted| ==> s.accepted[i].generation <= s.generation)
    && (forall i :: 0 <= i < |s.fates| && s.fates[i] == Dropped ==> s.accepted[i].generation < s.generation)
    && (forall i, j :: 0 <= i < j < |s.fates| && s.fates[i] == Dropped ==>
          s.accepted[i].generation < s.accepted[j].generation)
  }

  ghost predicate Submitted(s: State)
    requires |s.fates| == |s.accepted|
  {
    && Frames(s.captures) == Kept(s.accepted, s.fates)
    && CountDropped(s.fates) <= s.clears
    && (forall i :: 0 <= i < |s.captures| ==>
          s.captures[i].gate != Paused && s.captures[i].scheduled <= s.captures[i].started)
  }

  ghost predicate Inv(s: State) {
    Tracked(s) && InGenerationOrder(s) && Submitted(s)
  }

  /** Giving the last frame its fate only touches the last entry. */
  lemma SettleLast(frames: seq<Frame>, fates: seq<Fate>, fate: Fate)
    requires |frames| == |fates| > 0 && fates[|fates| - 1] == Waiting
    ensures Kept(frames, fates[|fates| - 1 := fate]) ==
            Kept(frames, fates) + if fate == Captured then [frames[|frames| - 1]] else []
    ensures CountDropped(fates[|fates| - 1 := fate]) ==
            CountDropped(fates) + if fate == Dropped then 1 else 0
  {
    var settled := fates[|fates| - 1 := fate];
    assert settled[..|settled| - 1] == fates[..|fates| - 1];
  }

  lemma ReceiveKeeps(frames: seq<Frame>, fates: seq<Fate>, frame: Frame)
    requires |frames| == |fates|
    ensures Kept(frames + [frame], fates + [Waiting]) == Kept(frames, fates)
    ensures CountDropped(fates + [Waiting]) == CountDropped(fates)
  {
    assert (frames + [frame])[..|frames|] == frames;
    assert (fates + [Waiting])[..|fates|] == fates;
  }

  lemma StepKeepsSubmitted(s: State, e: Event)
    requires Inv(s) && Enabled(s, e) && Tracked(Step(s, e))
    ensures Submitted(Step(s, e))
  {
    hide InGenerationOrder;
    match e
    case Receive(frame, _) => ReceiveKeeps(s.accepted, s.fates, frame);
    case Clear(next) => if s.pending.Some? { SettleLast(s.accepted, s.fates, Dropped); }
    case Submit(_, _, _) =>
      SettleLast(s.accepted, s.fates, Captured);
      assert Frames(Step(s, e).captures) == Frames(s.captures) + [Frame(s.generation, s.pending.value)];
    case _ =>
  }

  lemma StepKeepsTracked(s: State, e: Event)
    requires Tracked(s) && Enabled(s, e)
    ensures Tracked(Step(s, e))
  {
  }

  lemma StepKeepsOrder(s: State, e: Event)
    requires Tracked(s) && InGenerationOrder(s) && Enabled(s, e) && Tracked(Step(s, e))
    ensures InGenerationOrder(Step(s, e))
  {
  }

  lemma {:induction false} StepKeepsInv(s: State, e: Event)
    requires Inv(s) && Enabled(s, e)
    ensures Inv(Step(s, e))
  {
    StepKeepsTracked(s, e);
    StepKeepsOrder(s, e);
    StepKeepsSubmitted(s, e);
  }

  lemma {:induction false} RunKeepsInv(s: State, events: seq<Event>)
    requires Inv(s) && Legal(s, events)
    ensures Inv(Run(s, events))
    decreases |events|
  {
    if events != [] {
      StepKeepsInv(s, events[0]);
      RunKeepsInv(Step(s, events[0]), events[1..]);
    }
  }

  lemma StartHasInv(now: int)
    ensures Inv(Start(now))
  {
  }

  lemma StepAccepts(s: State, e: Event, rest: seq<Event>)
    requires Enabled(s, e)
    ensures var t := Step(s, e);
            && s.accepted + Matching(s.generation, [e] + rest) == t.accepted + Matching(t.generation, rest)
            && s.clears + AcceptedClears(s.generation, [e] + rest) ==
               t.clears + AcceptedClears(t.generation, rest)
  {
    assert ([e] + rest)[0] == e && ([e] + rest)[1..] == rest;
  }

  lemma {:induction false} RunAccepts(s: State, events: seq<Event>)
    requires Legal(s, events)
    ensures Run(s, events).accepted == s.accepted + Matching(s.generation, events)
    ensures Run(s, events).clears == s.clears + AcceptedClears(s.generation, events)
    decreases |events|
  {
    if events != [] {
      StepAccepts(s, events[0], events[1..]);
      assert [events[0]] + events[1..] == events;
      RunAccepts(Step(s, events[0]), events[1..]);
    }
  }

  /** The frames submitted to the source are the frames that matched their generation on receipt,
      in order, less at most one waiting frame for each accepted `Clear`.  A dropped frame is the
      last one of its generation.  Every frame is submitted under the generation it was sent with,
      and never while paused. */
  lemma Conservation(now: int, events: seq<Event>, s: State)
    requires Legal(Start(now), events) && s == Run(Start(now), events)
    ensures s.accepted == Matching(0, events) && |s.fates| == |s.accepted|
    ensures Frames(s.captures) == Kept(s.accepted, s.fates)
    ensures CountDropped(s.fates) <= AcceptedClears(0, events)
    ensures forall i :: 0 <= i < |s.fates| ==> (s.fates[i] == Waiting <==> s.pending.Some? && i == |s.fates| - 1)
    ensures forall i, j :: 0 <= i < j < |s.fates| && s.fates[i] == Dropped ==>
              s.accepted[i].generation < s.accepted[j].generation
    ensures forall i :: 0 <= i < |s.captures| ==> s.captures[i].gate != Paused
  {
    RunAccepts(Start(now), events);
    StartHasInv(now);
    RunKeepsInv(Start(now), events);
    InvConserves(s);
  }

  lemma InvConserves(s: State)
    requires Inv(s)
    ensures |s.fates| == |s.accepted| && Frames(s.captures) == Kept(s.accepted, s.fates)
    ensures forall i :: 0 <= i < |s.fates| ==> (s.fates[i] == Waiting <==> s.pending.Some? && i == |s.fates| - 1)
    ensures forall i, j :: 0 <= i < j < |s.fates| && s.fates[i] == Dropped ==>
              s.accepted[i].generation < s.accepted[j].generation
    ensures forall i :: 0 <= i < |s.captures| ==> s.captures[i].gate != Paused
  {
  }

  lemma {:induction false} AllKept(frames: seq<Frame>, fates: seq<Fate>)
    requires |frames| == |fates| && CountDropped(fates) == 0
    requires forall i :: 0 <= i < |fates| ==> fates[i] != Waiting
    ensures Kept(frames, fates) == frames
  {
    if frames != [] {
      AllKept(frames[..|frames| - 1], fates[..|fates| - 1]);
    }
  }

  /** Gates lose nothing: a stream that ends without an accepted `Clear` has submitted every
      matching frame, whatever gates it went through. */
  lemma GatesLoseNothing(now: int, events: seq<Event>, s: State)
    requires Legal(Start(now), events) && s == Run(Start(now), events)
    requires AcceptedClears(0, events) == 0 && s.pending.None?
    ensures Frames(s.captures) == Matching(0, events)
  {
    Conservation(now, events, s);
    AllKept(s.accepted, s.fates);
  }

  // ----- pacing

  /** The run never leaves `Paused`. */
  predicate NoResume(gate: Gate, events: seq<Event>)
    decreases |events|
  {
    events == [] ||
    match events[0]
    case SetGate(next, _) => !(gate == Paused && next != Paused) && NoResume(next, events[1..])
    case _ => NoResume(gate, events[1..])
  }

  /** How often the run leaves `Paused`. */
  function Resumes(gate: Gate, events: seq<Event>): nat
    decreases |events|
  {
    if events == [] then 0
    else match events[0]
      case SetGate(next, _) => (if gate == Paused && next != Paused then 1 else 0) + Resumes(next, events[1..])
      case _ => Resumes(gate, events[1..])
  }

  lemma {:induction false} NoResumeMeansNone(gate: Gate, events: seq<Event>)
    ensures NoResume(gate, events) <==> Resumes(gate, events) == 0
    decreases |events|
  {
    if events != [] {
      match events[0]
      case SetGate(next, _) => NoResumeMeansNone(next, events[1..]);
      case _ => NoResumeMeansNone(gate, events[1..]);
    }
  }

  function Anchor(c: Capture): int { FrameStart(c.scheduled, c.started) }

  /** After `resumes` resumes, captures after `i` keep at least this distance from the frame start of `i`. */
  ghost predicate Spread(s: State, i: nat, resumes: nat) {
    var n := |s.captures|;
    n <= i ||
    (&& (forall k :: i <= k < n ==> s.captures[k].scheduled <= s.captures[k].started)
     && (forall k :: i < k < n ==> s.captures[k].scheduled >= Anchor(s.captures[i]) + (k - i - resumes) * FRAME_PERIOD)
     && (s.status == Running ==>
           && s.clock >= Anchor(s.captures[n - 1])
           && s.nextCaptureAt >= Anchor(s.captures[i]) + (n - i - resumes) * FRAME_PERIOD))
  }

  lemma StepStaysSpread(s: State, e: Event, i: nat, resumes: nat)
    requires Enabled(s, e) && Spread(s, i, resumes)
    ensures Spread(Step(s, e), i, resumes + Resumes(s.gate, [e]))
  {
    assert [e][1..] == [];
  }

  lemma ResumesFirst(gate: Gate, events: seq<Event>)
    requires events != []
    ensures Resumes(gate, events) ==
            Resumes(gate, [events[0]]) + Resumes(if events[0].SetGate? then events[0].gate else gate, events[1..])
  {
    assert [events[0]][1..] == [];
  }

  lemma {:induction false} RunStaysSpread(s: State, events: seq<Event>, i: nat, resumes: nat)
    requires Legal(s, events) && Spread(s, i, resumes)
    ensures Spread(Run(s, events), i, resumes + Resumes(s.gate, events))
    decreases |events|
  {
    if events != [] {
      StepStaysSpread(s, events[0], i, resumes);
      ResumesFirst(s.gate, events);
      hide Spread, Resumes;
      RunStaysSpread(Step(s, events[0]), events[1..], i, resumes + Resumes(s.gate, [events[0]]));
    }
  }

  /** In every run, each resume from `Paused` costs at most one frame period of distance: with R of them,
      the starts of k+1 consecutive captures span more than k-1-R frame periods. */
  lemma ResumesBoundBursts(s: State, events: seq<Event>, i: nat, j: nat)
    requires Legal(s, events)
    requires |s.captures| <= i < j < |Run(s, events).captures|
    ensures Run(s, events).captures[j].started - Run(s, events).captures[i].started >
            (j - i - 1 - Resumes(s.gate, events)) * FRAME_PERIOD
  {
    RunStaysSpread(s, events, i, 0);
  }

  /** No catch-up burst: without a resume from `Paused`, the starts of k+1 consecutive captures
      span more than k-1 frame periods. */
  lemma NoBurst(s: State, events: seq<Event>, i: nat, j: nat)
    requires Legal(s, events) && NoResume(s.gate, events)
    requires |s.captures| <= i < j < |Run(s, events).captures|
    ensures Run(s, events).captures[j].started - Run(s, events).captures[i].started > (j - i - 1) * FRAME_PERIOD
  {
    NoResumeMeansNone(s.gate, events);
    ResumesBoundBursts(s, events, i, j);
  }

  lemma {:induction false} CapturesGrow(s: State, events: seq<Event>)
    requires Legal(s, events)
    ensures s.captures <= Run(s, events).captures
    decreases |events|
  {
    if events != [] { CapturesGrow(Step(s, events[0]), events[1..]); }
  }

  /** From `base` on, the n-th capture starts before tick n+1 and is complete by then. */
  ghost predicate OnTime(captures: seq<Capture>, base: nat, first: int) {
    forall i :: base <= i < |captures| ==>
      && captures[i].started < first + (i - base + 1) * FRAME_PERIOD
      && captures[i].completed <= first + (i - base + 1) * FRAME_PERIOD
  }

  ghost predicate Steady(s: State, base: nat, first: int) {
    && base <= |s.captures|
    && (forall i :: base <= i < |s.captures| ==> s.captures[i].scheduled == first + (i - base) * FRAME_PERIOD)
    && var m := |s.captures| - base;
       s.status == Running ==>
         s.nextCaptureAt == first + m * FRAME_PERIOD || s.nextCaptureAt >= first + (m + 1) * FRAME_PERIOD
  }

  lemma StepStaysSteady(s: State, e: Event, base: nat, first: int)
    requires Enabled(s, e) && Steady(s, base, first)
    requires !(e.SetGate? && s.gate == Paused && e.gate != Paused)
    requires OnTime(Step(s, e).captures, base, first)
    ensures Steady(Step(s, e), base, first)
  {
    var t, m := Step(s, e), |s.captures| - base;
    if e.Submit? {
      assert base + m < |t.captures| && t.captures[base + m].started == e.started;
      assert s.nextCaptureAt == first + m * FRAME_PERIOD;
    }
  }

  lemma {:induction false} RunStaysSteady(s: State, events: seq<Event>, base: nat, first: int)
    requires Legal(s, events) && NoResume(s.gate, events) && Steady(s, base, first)
    requires OnTime(Run(s, events).captures, base, first)
    ensures Steady(Run(s, events), base, first)
    decreases |events|
  {
    if events != [] {
      var t := Step(s, events[0]);
      CapturesGrow(t, events[1..]);
      assert forall i :: 0 <= i < |t.captures| ==> t.captures[i] == Run(s, events).captures[i];
      StepStaysSteady(s, events[0], base, first);
      RunStaysSteady(t, events[1..], base, first);
    }
  }

  /** Small jitter does not accumulate: while every start is less than one period late and done by
      the next tick, the n-th deadline is exactly n periods after the first. */
  lemma ExactCadence(s: State, events: seq<Event>, n: nat)
    requires Legal(s, events) && NoResume(s.gate, events)
    requires |s.captures| + n < |Run(s, events).captures|
    requires OnTime(Run(s, events).captures, |s.captures|, s.nextCaptureAt)
    ensures Run(s, events).captures[|s.captures| + n].scheduled == s.nextCaptureAt + n * FRAME_PERIOD
  {
    RunStaysSteady(s, events, |s.captures|, s.nextCaptureAt);
  }

  /** A frame captured at `at`, and then `n` times a pause, a resume and another frame, all at that instant. */
  function Burst(bytes: Bytes, at: int, n: nat): seq<Event> {
    [Receive(Frame(0, bytes), at), Submit(at, at, true)] +
    if n == 0 then [] else [SetGate(Paused, at), SetGate(Normal, at)] + Burst(bytes, at, n - 1)
  }

  predicate Idle(s: State, at: int) {
    && s.status == Running && s.generation == 0 && s.gate == Normal && s.pending.None?
    && s.clock <= at && s.nextCaptureAt <= at < s.nextCaptureAt + FRAME_PERIOD
  }

  lemma {:induction false} BurstRuns(s: State, bytes: Bytes, at: int, n: nat)
    requires Idle(s, at)
    ensures var events := Burst(bytes, at, n);
            && Legal(s, events) && Resumes(Normal, events) == n
            && var u := Run(s, events);
               && s.captures <= u.captures && |u.captures| == |s.captures| + n + 1
               && u.captures[|u.captures| - 1].started == at
    decreases n
  {
    var events := Burst(bytes, at, n);
    var e0, e1 := Receive(Frame(0, bytes), at), Submit(at, at, true);
    var s1 := Step(s, e0);
    var s2 := Step(s1, e1);
    assert events[1..][0] == e1;
    var rest := events[1..][1..];
    assert Resumes(Normal, events) == Resumes(Normal, rest);
    if n == 0 {
      assert rest == [];
    } else {
      var e2, e3 := SetGate(Paused, at), SetGate(Normal, at);
      var s4 := Step(Step(s2, e2), e3);
      BurstRuns(s4, bytes, at, n - 1);
      assert rest == [e2, e3] + Burst(bytes, at, n - 1);
      assert rest[1..][0] == e3 && rest[1..][1..] == Burst(bytes, at, n - 1);
      assert Resumes(Normal, rest) == Resumes(Paused, rest[1..]) == n;
      assert Legal(Step(s2, e2), rest[1..]) && Run(Step(s2, e2), rest[1..]) == Run(s4, rest[1..][1..]);
    }
    assert Legal(s2, rest) && Legal(s1, events[1..]) && Run(s1, events[1..]) == Run(s2, rest);
  }

  /** No better bound holds: for every number of resumes there is a run in which that many and two more
      captures start one microsecond further apart than it says. */
  lemma ResumeMayBurst(bytes: Bytes, resumes: nat) returns (events: seq<Event>)
    ensures Legal(Start(0), events) && Resumes(Normal, events) == resumes
    ensures var s, j := Run(Start(0), events), resumes + 1;
            && |s.captures| == resumes + 2
            && s.captures[j].started - s.captures[0].started == (j - 0 - 1 - resumes) * FRAME_PERIOD + 1
  {
    var e0, e1 := Receive(Frame(0, bytes), 0), Submit(FRAME_PERIOD - 1, FRAME_PERIOD - 1, true);
    var s1 := Step(Start(0), e0);
    var s2 := Step(s1, e1);
    BurstRuns(s2, bytes, FRAME_PERIOD, resumes);
    var rest := Burst(bytes, FRAME_PERIOD, resumes);
    events := [e0, e1] + rest;
    assert events[1..][0] == e1 && events[1..][1..] == rest;
    assert Legal(s1, events[1..]) && Run(s1, events[1..]) == Run(s2, rest);
    assert Resumes(Normal, events) == Resumes(Normal, events[1..]) == Resumes(Normal, rest);
    assert s2.captures[0].started == FRAME_PERIOD - 1;
  }

  // ----- the pump itself

  class Pump {
    var generation: nat
    var gate: Gate
    var pending: Option<Bytes>
    var nextCaptureAt: int
    var status: Status
    ghost var clock: int
    ghost var accepted: seq<Frame>
    ghost var fates: seq<Fate>
    ghost var captures: seq<Capture>
    ghost var clears: nat

    ghost function Now(): State
      reads this
    {
      State(generation, gate, pending, nextCaptureAt, status, clock, accepted, fates, captures, clears)
    }

    constructor (now: int)
      ensures Now() == Start(now)
    {
      generation, gate, pending, nextCaptureAt, status := 0, Normal, None, now, Running;
      clock, accepted, fates, captures, clears := now, [], [], [], 0;
    }

    /** The answer is what the sender is told: whether the clear was accepted. */
    method ClearTo(next: nat) returns (acknowledged: bool)
      requires status == Running
      modifies this
      ensures Now() == Step(old(Now()), Clear(next))
      ensures acknowledged == (next > old(generation))
    {
      acknowledged := next > generation;
      if acknowledged {
        generation := next;
        if pending.Some? && fates != [] { fates := fates[|fates| - 1 := Dropped]; }
        pending := None;
        clears := clears + 1;
      }
    }

    method ChangeGate(next: Gate, now: int)
      requires Enabled(Now(), SetGate(next, now))
      modifies this
      ensures Now() == Step(old(Now()), SetGate(next, now))
    {
      if gate == Paused && next != Paused { nextCaptureAt := now; }
      gate := next;
      clock := now;
    }

    method Take(frame: Frame, now: int)
      requires Enabled(Now(), Receive(frame, now))
      modifies this
      ensures Now() == Step(old(Now()), Receive(frame, now))
    {
      if frame.generation == generation {
        if now >= nextCaptureAt + FRAME_PERIOD { nextCaptureAt := now; }
        pending := Some(frame.bytes);
        accepted, fates := accepted + [frame], fates + [Waiting];
      }
      clock := now;
    }

    method SubmitPending(started: int, completed: int, ok: bool)
      requires Enabled(Now(), Submit(started, completed, ok))
      modifies this
      ensures Now() == Step(old(Now()), Submit(started, completed, ok))
    {
      captures := captures + [Capture(Frame(generation, pending.value), gate, nextCaptureAt, started, completed)];
      if fates != [] { fates := fates[|fates| - 1 := Captured]; }
      pending := None;
      clock := completed;
      if !ok || completed - started > CAPTURE_TIMEOUT {
        status := Failed;
      } else {
        nextCaptureAt := NextCaptureDeadline(nextCaptureAt, started, completed);
      }
    }

    /** The select loop, driven by the branches that fire. */
    method PumpLocalAudio(events: seq<Event>)
      requires Legal(Now(), events)
      modifies this
      ensures Now() == Run(old(Now()), events)
    {
      var i := 0;
      while i < |events|
        invariant 0 <= i <= |events|
        invariant Legal(Now(), events[i..])
        invariant Run(Now(), events[i..]) == Run(old(Now()), events)
      {
        assert events[i..][0] == events[i] && events[i..][1..] == events[i + 1..];
        match events[i] {
          case Clear(next) => var _ := ClearTo(next);
          case SetGate(next, at) => ChangeGate(next, at);
          case Receive(frame, at) => Take(frame, at);
          case OutputEnded => status := Finished;
          case ControlEnded => status := Failed;
          case Submit(started, completed, ok) => SubmitPending(started, completed, ok);
        }
        i := i + 1;
      }
    }
  }
}
