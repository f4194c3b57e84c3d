/** A realtime session as a whole: packets are cut into frames, frames drive the capture, and what the
    capture takes drives the transcription queue (`acceptAudio`, `finishInputBoundary` and the calls
    between `analyzeFrame`, `finishTurn` and `enqueue` in
    packages/openclaw-local-media/src/realtime-transcription-provider.ts).
 */
module SpeechSession {
  import C = SpeechCapture
  import Q = TranscriptQueue

  /** What a session has been through, as far as the speech gate can know. */
  datatype Seen = Analyzed(audio: seq<C.Byte>) | Crossed | Missed | Served(step: Q.Step)

  /** The speech gate: whether a frame is loud, on the strength of everything before it.  A gate with a memory
      of its own, fed by frames and results, is such a function. */
  type Ear = (seq<Seen>, seq<C.Byte>) -> bool

  /** `partial` is the incomplete frame at the end of the input. */
  datatype State = State(capture: C.State, queue: Q.State, partial: seq<C.Byte>, past: seq<Seen>)

  function Start(maxQueued: nat): State { State(C.Start(), Q.Start(maxQueued), [], []) }

  // ----- what one frame does

  /** A frame opens at most one turn and takes at most one batch, of the turn that is going on. */
  predicate OneStep(a: C.State, b: C.State) {
    && (b.turn == a.turn || (b.turn == a.turn + 1 && !a.speaking))
    && (if b.batches == a.batches then b.speaking == (a.speaking || b.turn > a.turn)
        else
          && |b.batches| == |a.batches| + 1 && b.batches[..|a.batches|] == a.batches
          && (a.speaking || b.turn > a.turn)
          && Last(b).turn == b.turn && b.speaking == !Last(b).endpoint
          && (Last(b).audio != [] || Last(b).endpoint) && (Last(b).transcribe || Last(b).endpoint))
  }

  function Last(s: C.State): C.Batch
    requires s.batches != []
  {
    s.batches[|s.batches| - 1]
  }

  lemma ListenIsOneStep(c: C.Settings, a: C.State, s: C.State, loud: bool)
    requires C.Normalized(c) && |s.utterance| <= |s.frames| && s.speaking && s.batches == a.batches
    requires s.turn == a.turn + (if a.speaking then 0 else 1)
    ensures OneStep(a, C.Listen(c, s, loud))
  {
    assert c.maxUtteranceMs - C.Least(400.0, c.maxUtteranceMs / 5.0) > 0.0;
  }

  lemma HearIsOneStep(c: C.Settings, s: C.State, frame: C.Frame)
    requires C.Normalized(c) && C.Inv(c, s)
    ensures OneStep(s, C.Hear(c, s, frame))
  {
    if s.speaking {
      ListenIsOneStep(c, s, C.Extend(s, frame), frame.loud);
    } else {
      C.WaitCounts(c, s, frame);
      var u := C.Wait(c, s, frame);
      if u.onsetMs as real >= c.onsetMs { ListenIsOneStep(c, s, C.OpenTurn(u), frame.loud); }
    }
  }

  function CutStep(b: C.Batch): Q.Step {
    if b.endpoint then Q.Endpoint(b.audio != [], b.transcribe) else Q.Batch
  }

  predicate InStep(capture: C.State, queue: Q.State) {
    && |queue.turns| == capture.turn && (capture.speaking ==> capture.turn > 0)
    && (if queue.closed then !capture.speaking else queue.speaking == capture.speaking)
  }

  /** The queue follows the capture from `a` to `b`. */
  function Follow(queue: Q.State, a: C.State, b: C.State): Q.State
    requires !queue.closed && InStep(a, queue) && OneStep(a, b)
  {
    var q := if b.turn > a.turn then Q.Apply(queue, Q.Onset) else queue;
    if b.batches == a.batches then q else Q.Apply(q, CutStep(Last(b)))
  }

  /** A session that has closed holds no input. */
  function Settled(s: State): State {
    if s.queue.closed then s.(capture := C.Drop(s.capture), partial := []) else s
  }

  function HearFrame(c: C.Settings, s: State, frame: C.Frame): State
    requires C.Normalized(c) && C.Inv(c, s.capture) && !s.queue.closed && InStep(s.capture, s.queue)
  {
    HearIsOneStep(c, s.capture, frame);
    var next := C.Hear(c, s.capture, frame);
    Settled(s.(capture := next, queue := Follow(s.queue, s.capture, next)))
  }

  // ----- what every session keeps

  function Taken(batches: seq<C.Batch>, turn: nat): nat {
    if batches == [] then 0
    else Taken(batches[..|batches| - 1], turn) + if batches[|batches| - 1].turn == turn then 1 else 0
  }

  predicate EndsTurn(b: C.Batch, turn: nat) { b.endpoint && b.turn == turn }

  predicate AllSent(batches: seq<C.Batch>, turn: nat) {
    forall k :: 0 <= k < |batches| && batches[k].turn == turn ==> batches[k].transcribe
  }

  predicate HasEndpoint(batches: seq<C.Batch>, turn: nat) {
    exists k :: 0 <= k < |batches| && EndsTurn(batches[k], turn)
  }

  predicate NoneBeyond(batches: seq<C.Batch>, turn: nat) {
    forall k :: 0 <= k < |batches| ==> batches[k].turn <= turn
  }

  /** A wanted turn got one job for each of its batches, and every outcome comes from an endpoint. */
  ghost predicate Sourced(queue: Q.State, batches: seq<C.Batch>) {
    && (forall t :: 0 <= t < |queue.turns| && !queue.turns[t].discarded ==>
          queue.turns[t].sent == Taken(batches, t + 1) && AllSent(batches, t + 1))
    && (forall i :: 0 <= i < |queue.jobs| && queue.jobs[i].endpoint ==> HasEndpoint(batches, queue.jobs[i].turn + 1))
    && (forall k :: 0 <= k < |queue.transcripts| ==> HasEndpoint(batches, queue.transcripts[k].id + 1))
  }

  ghost predicate Inv(c: C.Settings, s: State) {
    && C.Normalized(c) && C.Inv(c, s.capture) && Q.Kept(s.queue) && InStep(s.capture, s.queue)
    && NoneBeyond(s.capture.batches, s.capture.turn) && Sourced(s.queue, s.capture.batches)
    && |s.partial| < C.FrameBytes(c)
  }

  lemma {:induction false} NoneTaken(batches: seq<C.Batch>, turn: nat)
    requires forall k :: 0 <= k < |batches| ==> batches[k].turn < turn
    ensures Taken(batches, turn) == 0
    decreases |batches|
  {
    if batches != [] { NoneTaken(batches[..|batches| - 1], turn); }
  }

  lemma OnsetSources(queue: Q.State, batches: seq<C.Batch>)
    requires Sourced(queue, batches) && Q.Enabled(queue, Q.Onset) && NoneBeyond(batches, |queue.turns|)
    ensures Sourced(Q.Apply(queue, Q.Onset), batches)
  {
    NoneTaken(batches, |queue.turns| + 1);
  }

  /** Steps that take no batch. */
  predicate Serves(step: Q.Step) {
    step.Gap? || step.BeginJob? || step.ConfirmSpeech? || step.EndJob? || step.CatchJob? || step.FinallyJob? ||
    step.ProcessorError? || step.CloseSession?
  }

  ghost predicate Derived(a: Q.State, b: Q.State) {
    && |b.turns| == |a.turns|
    && (forall t :: 0 <= t < |a.turns| && !b.turns[t].discarded ==>
          !a.turns[t].discarded && b.turns[t].sent == a.turns[t].sent)
    && (forall i :: 0 <= i < |b.jobs| && b.jobs[i].endpoint ==>
          exists j :: 0 <= j < |a.jobs| && a.jobs[j].endpoint && a.jobs[j].turn == b.jobs[i].turn)
    && (forall k :: 0 <= k < |b.transcripts| ==>
          || (k < |a.transcripts| && b.transcripts[k] == a.transcripts[k])
          || (exists j :: 0 <= j < |a.jobs| && a.jobs[j].endpoint && a.jobs[j].turn == b.transcripts[k].id))
  }

  lemma DerivedSources(a: Q.State, b: Q.State, batches: seq<C.Batch>)
    requires Sourced(a, batches) && Derived(a, b)
    ensures Sourced(b, batches)
  {
  }

  lemma HeadDerives(a: Q.State, phase: Q.Phase)
    requires a.jobs != []
    ensures Derived(a, Q.Head(a, phase))
  {
    assert forall i :: 0 < i < |a.jobs| ==> Q.Head(a, phase).jobs[i] == a.jobs[i];
    forall i | 0 <= i < |a.jobs| && Q.Head(a, phase).jobs[i].endpoint
      ensures exists j :: 0 <= j < |a.jobs| && a.jobs[j].endpoint && a.jobs[j].turn == Q.Head(a, phase).jobs[i].turn
    {
      assert a.jobs[i].endpoint && a.jobs[i].turn == Q.Head(a, phase).jobs[i].turn;
    }
  }

  lemma SameJobsDerive(a: Q.State, b: Q.State)
    requires |b.turns| == |a.turns| && b.jobs == a.jobs && b.transcripts == a.transcripts
    requires forall t :: 0 <= t < |a.turns| && !b.turns[t].discarded ==>
               !a.turns[t].discarded && b.turns[t].sent == a.turns[t].sent
    ensures Derived(a, b)
  {
  }

  lemma AcceptDerives(a: Q.State, text: string)
    requires a.jobs != [] && a.jobs[0].turn < |a.turns|
    ensures Derived(a, Q.Accept(Q.Head(a, Q.Done), a.jobs[0].turn, a.jobs[0].endpoint, text))
  {
    HeadDerives(a, Q.Done);
  }

  lemma EndJobDerives(a: Q.State, outcome: Q.Outcome)
    requires a.jobs != [] && a.jobs[0].turn < |a.turns|
    ensures Derived(a, Q.SettleJob(a, outcome))
  {
    var t := a.jobs[0].turn;
    if outcome.Heard? && (a.closed || a.turns[t].discarded) {
      HeadDerives(a, Q.Done);
    } else if outcome.Heard? && !(outcome.text != "" && outcome.tooLong) {
      AcceptDerives(a, outcome.text);
    } else {
      var (u, throws) := Q.Catch(a, t, outcome.Busy?);
      HeadDerives(u, if throws then Q.Threw else Q.Done);
      assert u.jobs == a.jobs && u.transcripts == a.transcripts;
    }
  }

  lemma FinallyDerives(a: Q.State)
    requires Q.Enabled(a, Q.FinallyJob)
    ensures Derived(a, Q.Apply(a, Q.FinallyJob))
  {
    var b := Q.Apply(a, Q.FinallyJob);
    forall i | 0 <= i < |b.jobs| && b.jobs[i].endpoint
      ensures exists j :: 0 <= j < |a.jobs| && a.jobs[j].endpoint && a.jobs[j].turn == b.jobs[i].turn
    {
      assert b.jobs[i] == a.jobs[i + 1];
    }
  }

  lemma CatchJobDerives(a: Q.State)
    requires Q.Enabled(a, Q.CatchJob)
    ensures Derived(a, Q.Apply(a, Q.CatchJob))
  {
    HeadDerives(Q.Fail(a), Q.Done);
  }

  lemma {:induction false} ServingDerives(a: Q.State, step: Q.Step)
    requires Serves(step) && Q.Enabled(a, step)
    ensures Derived(a, Q.Apply(a, step))
  {
    match step
    case Gap => SameJobsDerive(a, Q.Apply(a, step));
    case BeginJob => HeadDerives(a, if a.closed || a.turns[a.jobs[0].turn].discarded then Q.Done else Q.Running);
    case ConfirmSpeech => SameJobsDerive(a, Q.Apply(a, step));
    case EndJob(outcome) => EndJobDerives(a, outcome);
    case CatchJob => CatchJobDerives(a);
    case FinallyJob => FinallyDerives(a);
    case ProcessorError => SameJobsDerive(a, Q.Apply(a, step));
    case CloseSession => SameJobsDerive(a, Q.Apply(a, step));
  }

  // ----- taking a batch

  lemma TakenAppend(batches: seq<C.Batch>, b: C.Batch, turn: nat)
    ensures Taken(batches + [b], turn) == Taken(batches, turn) + if b.turn == turn then 1 else 0
    ensures AllSent(batches + [b], turn) <==> AllSent(batches, turn) && (b.turn == turn ==> b.transcribe)
    ensures HasEndpoint(batches, turn) ==> HasEndpoint(batches + [b], turn)
    ensures EndsTurn(b, turn) ==> HasEndpoint(batches + [b], turn)
  {
    var all := batches + [b];
    assert all[..|batches|] == batches;
    assert forall k :: 0 <= k < |batches| ==> all[k] == batches[k];
    if HasEndpoint(batches, turn) {
      var k :| 0 <= k < |batches| && EndsTurn(batches[k], turn);
      assert EndsTurn(all[k], turn);
    }
    if EndsTurn(b, turn) { assert EndsTurn(all[|batches|], turn); }
    if AllSent(all, turn) {
      assert all[|batches|] == b;
      assert forall k :: 0 <= k < |batches| ==> batches[k] == all[k];
    }
  }

  /** What taking `b` may do to the queue: one more job for its turn, or the turn is given up. */
  ghost predicate Grown(a: Q.State, q: Q.State, b: C.Batch) {
    && |q.turns| == |a.turns| == b.turn && b.turn > 0 && q.transcripts == a.transcripts
    && (forall t :: 0 <= t < |a.turns| && !q.turns[t].discarded ==>
          !a.turns[t].discarded &&
          q.turns[t].sent == a.turns[t].sent + if t + 1 == b.turn then 1 else 0)
    && (!q.turns[b.turn - 1].discarded ==> b.transcribe)
    && (forall i :: 0 <= i < |q.jobs| && q.jobs[i].endpoint ==>
          (i < |a.jobs| && q.jobs[i] == a.jobs[i]) || EndsTurn(b, q.jobs[i].turn + 1))
  }

  lemma GrownSources(a: Q.State, q: Q.State, batches: seq<C.Batch>, b: C.Batch)
    requires Sourced(a, batches) && b.turn > 0 && Grown(a, q, b)
    ensures Sourced(q, batches + [b])
  {
    forall t: nat { TakenAppend(batches, b, t); }
  }

  lemma EnqueueGrows(a: Q.State, b: C.Batch)
    requires a.turns != [] && b.turn == |a.turns| && !a.closed
    requires a.turns[b.turn - 1].open || a.turns[b.turn - 1].discarded
    requires b.transcribe
    ensures Grown(a, Q.Enqueue(a, b.turn - 1, b.audio != [], b.endpoint), b)
  {
  }

  lemma CutGrows(a: Q.State, b: C.Batch)
    requires Q.Sound(a) && Q.Enabled(a, CutStep(b)) && b.turn == |a.turns|
    requires !b.endpoint ==> b.transcribe && b.audio != []
    ensures Grown(a, Q.Apply(a, CutStep(b)), b)
  {
    assert a.turns[b.turn - 1].open || a.turns[b.turn - 1].discarded;
    if b.transcribe {
      var u := if b.endpoint then a.(speaking := false) else a;
      EnqueueGrows(u, b);
      assert Q.Apply(a, CutStep(b)) == Q.Enqueue(u, b.turn - 1, b.audio != [], b.endpoint);
    }
  }

  lemma {:induction false} CutKeeps(queue: Q.State, batches: seq<C.Batch>, b: C.Batch)
    requires Q.Kept(queue) && Sourced(queue, batches) && Q.Enabled(queue, CutStep(b)) && b.turn == |queue.turns|
    requires !b.endpoint ==> b.transcribe && b.audio != []
    ensures Q.Kept(Q.Apply(queue, CutStep(b))) && Sourced(Q.Apply(queue, CutStep(b)), batches + [b])
  {
    Q.StepKeeps(queue, CutStep(b));
    CutGrows(queue, b);
    GrownSources(queue, Q.Apply(queue, CutStep(b)), batches, b);
  }

  /** Whether the queue closes is decided by the cut alone. */
  lemma CutShape(queue: Q.State, b: C.Batch)
    requires Q.Enabled(queue, CutStep(b))
    ensures var q := Q.Apply(queue, CutStep(b));
            |q.turns| == |queue.turns| && (!q.closed ==> q.speaking == !b.endpoint)
  {
  }

  lemma {:induction false} FollowKeeps(queue: Q.State, a: C.State, b: C.State)
    requires Q.Kept(queue) && !queue.closed && InStep(a, queue) && OneStep(a, b)
    requires Sourced(queue, a.batches) && NoneBeyond(a.batches, a.turn)
    ensures var q := Follow(queue, a, b);
            && Q.Kept(q) && Sourced(q, b.batches) && NoneBeyond(b.batches, b.turn) && |q.turns| == b.turn
            && (!q.closed ==> q.speaking == b.speaking) && (b.speaking ==> b.turn > 0)
  {
    hide Q.Kept;
    var q := queue;
    if b.turn > a.turn {
      Q.StepKeeps(queue, Q.Onset);
      OnsetSources(queue, a.batches);
      q := Q.Apply(queue, Q.Onset);
    }
    assert !q.closed && |q.turns| == b.turn && q.speaking == (a.speaking || b.turn > a.turn);
    if b.batches != a.batches {
      assert b.batches == a.batches + [Last(b)];
      CutKeeps(q, a.batches, Last(b));
      CutShape(q, Last(b));
    }
  }

  lemma SettledKeeps(c: C.Settings, s: State)
    requires C.Normalized(c) && C.Inv(c, s.capture) && Q.Kept(s.queue) && |s.queue.turns| == s.capture.turn
    requires !s.queue.closed ==> InStep(s.capture, s.queue)
    requires NoneBeyond(s.capture.batches, s.capture.turn) && Sourced(s.queue, s.capture.batches)
    requires |s.partial| < C.FrameBytes(c)
    ensures Inv(c, Settled(s))
  {
    C.DropKeeps(c, s.capture);
  }

  lemma {:induction false} HearKeeps(c: C.Settings, s: State, frame: C.Frame)
    requires Inv(c, s) && !s.queue.closed
    ensures Inv(c, HearFrame(c, s, frame))
  {
    HearIsOneStep(c, s.capture, frame);
    C.HearKeeps(c, s.capture, frame);
    var next := C.Hear(c, s.capture, frame);
    FollowKeeps(s.queue, s.capture, next);
    SettledKeeps(c, s.(capture := next, queue := Follow(s.queue, s.capture, next)));
  }

  // ----- packets

  /** A complete frame of input, heard as the gate judges it. */
  function HearAudio(c: C.Settings, loud: Ear, s: State, audio: seq<C.Byte>): State
    requires Inv(c, s) && !s.queue.closed
  {
    HearFrame(c, s.(partial := [], past := s.past + [Analyzed(audio)]), C.Frame(audio, loud(s.past, audio)))
  }

  lemma HearAudioKeeps(c: C.Settings, loud: Ear, s: State, audio: seq<C.Byte>)
    requires Inv(c, s) && !s.queue.closed
    ensures Inv(c, HearAudio(c, loud, s, audio))
  {
    HearKeeps(c, s.(partial := [], past := s.past + [Analyzed(audio)]), C.Frame(audio, loud(s.past, audio)));
  }

  /** One more byte of input, which may complete a frame. */
  function Byte(c: C.Settings, loud: Ear, s: State, byte: C.Byte): State
    requires Inv(c, s) && !s.queue.closed
  {
    var all := s.partial + [byte];
    if |all| < C.FrameBytes(c) then s.(partial := all) else HearAudio(c, loud, s, all)
  }

  lemma {:induction false} ByteKeeps(c: C.Settings, loud: Ear, s: State, byte: C.Byte)
    requires Inv(c, s) && !s.queue.closed
    ensures Inv(c, Byte(c, loud, s, byte))
  {
    var all := s.partial + [byte];
    if |all| >= C.FrameBytes(c) { HearAudioKeeps(c, loud, s, all); }
  }

  /** The bytes of a packet, until the session closes. */
  function Send(c: C.Settings, loud: Ear, s: State, packet: seq<C.Byte>): State
    requires Inv(c, s)
    decreases |packet|
  {
    if packet == [] || s.queue.closed then s else
      ByteKeeps(c, loud, s, packet[0]);
      Send(c, loud, Byte(c, loud, s, packet[0]), packet[1..])
  }

  lemma {:induction false} SendKeeps(c: C.Settings, loud: Ear, s: State, packet: seq<C.Byte>)
    requires Inv(c, s)
    ensures Inv(c, Send(c, loud, s, packet))
    decreases |packet|
  {
    if packet != [] && !s.queue.closed {
      ByteKeeps(c, loud, s, packet[0]);
      SendKeeps(c, loud, Byte(c, loud, s, packet[0]), packet[1..]);
    }
  }

  /** Where the input is split into packets makes no difference. */
  lemma {:induction false} PacketsDoNotMatter(
      c: C.Settings, loud: Ear, s: State, a: seq<C.Byte>, b: seq<C.Byte>)
    requires Inv(c, s)
    ensures Inv(c, Send(c, loud, s, a))
    ensures Send(c, loud, s, a + b) == Send(c, loud, Send(c, loud, s, a), b)
    decreases |a|
  {
    hide Inv, Byte;
    SendKeeps(c, loud, s, a);
    if a == [] {
      assert a + b == b;
    } else if !s.queue.closed {
      assert (a + b)[1..] == a[1..] + b;
      ByteKeeps(c, loud, s, a[0]);
      PacketsDoNotMatter(c, loud, Byte(c, loud, s, a[0]), a[1..], b);
    }
  }

  /** The complete frames of a stretch of input, each judged on what came before it. */
  function Frames(size: nat, loud: Ear, past: seq<Seen>, input: seq<C.Byte>): seq<C.Frame>
    requires size > 0
    decreases |input|
  {
    if |input| < size then []
    else
      [C.Frame(input[..size], loud(past, input[..size]))] +
      Frames(size, loud, past + [Analyzed(input[..size])], input[size..])
  }

  /** What is left of a stretch of input after its complete frames. */
  function Rest(size: nat, input: seq<C.Byte>): (rest: seq<C.Byte>)
    requires size > 0
    ensures |rest| < size
    decreases |input|
  {
    if |input| < size then input else Rest(size, input[size..])
  }

  lemma FirstFrame(size: nat, loud: Ear, past: seq<Seen>, first: seq<C.Byte>, more: seq<C.Byte>)
    requires |first| == size > 0
    ensures Frames(size, loud, past, first + more) ==
            [C.Frame(first, loud(past, first))] + Frames(size, loud, past + [Analyzed(first)], more)
    ensures Rest(size, first + more) == Rest(size, more)
  {
    assert (first + more)[..size] == first && (first + more)[size..] == more;
  }

  /** From `s`, `input` led to the frames and the rest of `u`. */
  predicate Cuts(size: nat, loud: Ear, s: State, input: seq<C.Byte>, u: State)
    requires size > 0
  {
    && u.capture.frames == s.capture.frames + Frames(size, loud, s.past, s.partial + input)
    && u.partial == Rest(size, s.partial + input)
  }

  predicate CutsOne(size: nat, loud: Ear, s: State, byte: C.Byte, u: State) {
    var all := s.partial + [byte];
    if |all| < size then u.partial == all && u.capture.frames == s.capture.frames && u.past == s.past
    else
      && |all| == size && u.partial == [] && u.past == s.past + [Analyzed(all)]
      && u.capture.frames == s.capture.frames + [C.Frame(all, loud(s.past, all))]
  }

  lemma ByteCuts(c: C.Settings, loud: Ear, s: State, byte: C.Byte)
    requires Inv(c, s) && !s.queue.closed && !Byte(c, loud, s, byte).queue.closed
    ensures CutsOne(C.FrameBytes(c), loud, s, byte, Byte(c, loud, s, byte))
  {
  }

  lemma CutsCompose(size: nat, loud: Ear, s: State, packet: seq<C.Byte>, next: State, u: State)
    requires size > 0 && packet != [] && CutsOne(size, loud, s, packet[0], next)
    requires Cuts(size, loud, next, packet[1..], u)
    ensures Cuts(size, loud, s, packet, u)
  {
    var all := s.partial + [packet[0]];
    assert s.partial + packet == all + packet[1..];
    if |all| == size {
      FirstFrame(size, loud, s.past, all, packet[1..]);
      assert [] + packet[1..] == packet[1..];
    }
  }

  lemma ClosedStays(c: C.Settings, loud: Ear, s: State, packet: seq<C.Byte>)
    requires Inv(c, s) && !Send(c, loud, s, packet).queue.closed
    ensures !s.queue.closed
  {
  }

  /** While the session stays open, the frames analysed are the input cut into pieces of 20 ms, and
      what is left over waits. */
  lemma {:induction false} SendCutsFrames(
      c: C.Settings, loud: Ear, s: State, packet: seq<C.Byte>, u: State)
    requires Inv(c, s) && u == Send(c, loud, s, packet) && !u.queue.closed
    ensures Cuts(C.FrameBytes(c), loud, s, packet, u)
    decreases |packet|
  {
    ClosedStays(c, loud, s, packet);
    if packet == [] {
      assert s.partial + packet == s.partial;
    } else {
      var next := Byte(c, loud, s, packet[0]);
      ByteKeeps(c, loud, s, packet[0]);
      ClosedStays(c, loud, next, packet[1..]);
      ByteCuts(c, loud, s, packet[0]);
      SendCutsFrames(c, loud, next, packet[1..], u);
      CutsCompose(C.FrameBytes(c), loud, s, packet, next, u);
    }
  }

  // ----- whole sessions

  datatype Event = Packet(bytes: seq<C.Byte>) | EndInput | InputGap | Service(step: Q.Step)

  predicate Enabled(s: State, event: Event) {
    event.Service? ==> Serves(event.step) && !event.step.Gap? && Q.Enabled(s.queue, event.step)
  }

  lemma BoundaryIsOneStep(c: C.Settings, s: C.State)
    requires C.Normalized(c) && C.Inv(c, s)
    ensures OneStep(s, C.Boundary(c, s))
  {
  }

  /** An explicit end of the input; refused while a frame is incomplete. */
  function Ended(c: C.Settings, s: State): State
    requires Inv(c, s)
  {
    if s.queue.closed || s.partial != [] then s else
      BoundaryIsOneStep(c, s.capture);
      var next := C.Boundary(c, s.capture);
      Settled(s.(capture := next, queue := Follow(s.queue, s.capture, next), past := s.past + [Crossed]))
  }

  function Interrupted(s: State): State {
    if s.queue.closed then s
    else s.(capture := C.Drop(s.capture), partial := [], queue := Q.Apply(s.queue, Q.Gap), past := s.past + [Missed])
  }

  function Apply(c: C.Settings, loud: Ear, s: State, event: Event): State
    requires Inv(c, s) && Enabled(s, event)
  {
    match event
    case Packet(bytes) => Send(c, loud, s, bytes)
    case EndInput => Ended(c, s)
    case InputGap => Interrupted(s)
    case Service(step) => Settled(s.(queue := Q.Apply(s.queue, step), past := s.past + [Served(step)]))
  }

  lemma {:induction false} EndedKeeps(c: C.Settings, s: State)
    requires Inv(c, s)
    ensures Inv(c, Ended(c, s))
  {
    if !s.queue.closed && s.partial == [] {
      BoundaryIsOneStep(c, s.capture);
      C.BoundaryKeeps(c, s.capture);
      var next := C.Boundary(c, s.capture);
      FollowKeeps(s.queue, s.capture, next);
      SettledKeeps(c, s.(capture := next, queue := Follow(s.queue, s.capture, next), past := s.past + [Crossed]));
    }
  }

  lemma {:induction false} InterruptedKeeps(c: C.Settings, s: State)
    requires Inv(c, s)
    ensures Inv(c, Interrupted(s))
  {
    if !s.queue.closed {
      C.DropKeeps(c, s.capture);
      Q.StepKeeps(s.queue, Q.Gap);
      ServingDerives(s.queue, Q.Gap);
      DerivedSources(s.queue, Q.Apply(s.queue, Q.Gap), s.capture.batches);
    }
  }

  /** Serving the queue does not touch the turn that is being spoken, unless the session closes. */
  lemma ServingIsQuiet(queue: Q.State, step: Q.Step)
    requires Serves(step) && !step.Gap? && Q.Enabled(queue, step)
    ensures var q := Q.Apply(queue, step);
            |q.turns| == |queue.turns| && (queue.closed ==> q.closed) && (!q.closed ==> q.speaking == queue.speaking)
  {
  }

  lemma {:induction false} ServiceKeeps(c: C.Settings, s: State, step: Q.Step)
    requires Inv(c, s) && Serves(step) && !step.Gap? && Q.Enabled(s.queue, step)
    ensures Inv(c, Settled(s.(queue := Q.Apply(s.queue, step), past := s.past + [Served(step)])))
  {
    Q.StepKeeps(s.queue, step);
    ServingDerives(s.queue, step);
    ServingIsQuiet(s.queue, step);
    DerivedSources(s.queue, Q.Apply(s.queue, step), s.capture.batches);
    SettledKeeps(c, s.(queue := Q.Apply(s.queue, step), past := s.past + [Served(step)]));
  }

  lemma {:induction false} ApplyKeeps(c: C.Settings, loud: Ear, s: State, event: Event)
    requires Inv(c, s) && Enabled(s, event)
    ensures Inv(c, Apply(c, loud, s, event))
  {
    match event
    case Packet(bytes) => SendKeeps(c, loud, s, bytes);
    case EndInput => EndedKeeps(c, s);
    case InputGap => InterruptedKeeps(c, s);
    case Service(step) => ServiceKeeps(c, s, step);
  }

  predicate Legal(c: C.Settings, loud: Ear, s: State, events: seq<Event>)
    requires Inv(c, s)
    decreases |events|
  {
    events == [] || (
      && Enabled(s, events[0])
      && (ApplyKeeps(c, loud, s, events[0]); Legal(c, loud, Apply(c, loud, s, events[0]), events[1..])))
  }

  function Run(c: C.Settings, loud: Ear, s: State, events: seq<Event>): State
    requires Inv(c, s) && Legal(c, loud, s, events)
    decreases |events|
  {
    if events == [] then s else
      ApplyKeeps(c, loud, s, events[0]);
      Run(c, loud, Apply(c, loud, s, events[0]), events[1..])
  }

  lemma {:induction false} RunKeeps(c: C.Settings, loud: Ear, s: State, events: seq<Event>)
    requires Inv(c, s) && Legal(c, loud, s, events)
    ensures Inv(c, Run(c, loud, s, events))
    decreases |events|
  {
    if events != [] {
      ApplyKeeps(c, loud, s, events[0]);
      RunKeeps(c, loud, Apply(c, loud, s, events[0]), events[1..]);
    }
  }

  lemma StartKeeps(c: C.Settings, maxQueued: nat)
    requires C.Normalized(c)
    ensures Inv(c, Start(maxQueued))
  {
  }

  ghost predicate Reached(
      c: C.Settings, loud: Ear, maxQueued: nat, events: seq<Event>, s: State)
  {
    && C.Normalized(c) && Inv(c, Start(maxQueued)) && Legal(c, loud, Start(maxQueued), events)
    && s == Run(c, loud, Start(maxQueued), events)
  }

  /** Whatever is captured, each utterance is told `started`, at most one confirmation and one outcome,
      and only a live endpoint job delays the outcome. */
  lemma EveryUtteranceEnds(
      c: C.Settings, loud: Ear, maxQueued: nat, events: seq<Event>, s: State, id: nat)
    requires Reached(c, loud, maxQueued, events, s)
    ensures var told := Q.About(s.queue.trace, id);
            && Q.InProtocol(told)
            && (told != [] && !Q.Ended(told) ==>
                  !s.queue.closed && exists i :: Q.EndpointJobAt(s.queue.jobs, id, i))
  {
    RunKeeps(c, loud, Start(maxQueued), events);
    Q.ProgressTells(s.queue.trace, id);
  }

  /** A transcript joins one result for every batch of its utterance, all of them transcribed, up to
      the endpoint; and these batches are one contiguous run of the frames heard. */
  lemma TranscriptCoversUtterance(
      c: C.Settings, loud: Ear, maxQueued: nat, events: seq<Event>, s: State, n: nat)
    requires Reached(c, loud, maxQueued, events, s) && n < |s.queue.transcripts|
    ensures var id := s.queue.transcripts[n].id;
            && id < |s.queue.turns|
            && s.queue.transcripts[n].text == Q.Joined(s.queue.turns[id].heard)
            && |s.queue.turns[id].heard| == Taken(s.capture.batches, id + 1)
            && AllSent(s.capture.batches, id + 1) && HasEndpoint(s.capture.batches, id + 1)
    ensures forall k, l :: 0 <= k <= l < |s.capture.batches| &&
                           s.capture.batches[k].turn == s.capture.batches[l].turn == s.queue.transcripts[n].id + 1 ==>
              C.Chained(s.capture, k, l)
  {
    RunKeeps(c, loud, Start(maxQueued), events);
    forall k, l | 0 <= k <= l < |s.capture.batches| ensures C.Chained(s.capture, k, l) {
      C.BatchesChain(c, s.capture, k, l);
    }
  }

  // ----- the session object

  class Session {
    const c: C.Settings
    const loud: Ear
    const capture: C.Capture
    const queue: Q.SerialQueue
    var inputFrame: seq<C.Byte>
    var past: seq<Seen>

    ghost function Now(): State
      reads this, capture, queue
    {
      State(capture.Now(), queue.Now(), inputFrame, past)
    }

    ghost predicate Valid()
      reads this, capture, queue
    {
      capture.c == c && capture.Sized() && Inv(c, Now())
    }

    constructor (c: C.Settings, loud: Ear, maxQueued: nat)
      requires C.Normalized(c)
      ensures Valid() && Now() == Start(maxQueued) && fresh(capture) && fresh(queue)
      ensures this.c == c && this.loud == loud
    {
      this.c, this.loud := c, loud;
      capture := new C.Capture(c);
      queue := new Q.SerialQueue(maxQueued);
      inputFrame, past := [], [];
      new;
      assert Now() == Start(maxQueued);
      StartKeeps(c, maxQueued);
    }

    /** What the capture started or took goes to the queue; a queue that fails ends the input. */
    method Forward(begun: bool, cut: C.Cut, ghost before: C.State)
      requires capture.Sized() && !queue.closed && InStep(before, queue.Now()) && OneStep(before, capture.Now())
      requires begun == (capture.turn > before.turn) && cut == C.CutOf(before, capture.Now())
      modifies this, capture, queue
      ensures Now() == Settled(old(Now()).(queue := Follow(old(queue.Now()), before, old(capture.Now()))))
      ensures capture.Sized()
    {
      if begun { queue.OpenTurn(); }
      match cut {
        case NoCut =>
        case Part => queue.EnqueueAudio(|queue.turns| - 1, true, false);
        case End(audio, transcribe) => queue.EndTurn(audio, transcribe);
      }
      if queue.closed {
        capture.DropInput();
        inputFrame := [];
      }
    }

    method Analyze(frame: C.Frame)
      requires Valid() && !queue.closed && |frame.audio| == C.FrameBytes(c)
      modifies this, capture, queue
      ensures Valid() && Now() == HearFrame(c, old(Now()), frame)
    {
      HearKeeps(c, Now(), frame);
      HearIsOneStep(c, capture.Now(), frame);
      ghost var before := capture.Now();
      var begun, cut := capture.AnalyzeFrame(frame);
      Forward(begun, cut, before);
    }

    /** The next piece of a packet, which completes at most one frame. */
    method FillFrame(piece: seq<C.Byte>)
      requires Valid() && !queue.closed && piece != [] && |inputFrame| + |piece| <= C.FrameBytes(c)
      modifies this, capture, queue
      ensures Valid() && Now() == Filled(c, loud, old(Now()), piece)
    {
      ghost var before := Now();
      inputFrame := inputFrame + piece;
      if |inputFrame| == C.FrameBytes(c) {
        var frame := inputFrame;
        var isLoud := loud(past, frame);
        inputFrame, past := [], past + [Analyzed(frame)];
        assert Now() == before.(partial := [], past := before.past + [Analyzed(frame)]);
        Analyze(C.Frame(frame, isLoud));
      }
    }

    method TakePiece(audio: seq<C.Byte>) returns (count: nat)
      requires Valid() && !queue.closed && audio != []
      modifies this, capture, queue
      ensures Valid() && 0 < count <= |audio|
      ensures Send(c, loud, Now(), audio[count..]) == Send(c, loud, old(Now()), audio)
    {
      var room := C.FrameBytes(c) - |inputFrame|;
      count := if room <= |audio| then room else |audio|;
      assert audio == audio[..count] + audio[count..];
      PieceFills(c, loud, Now(), audio[..count], audio[count..]);
      FillFrame(audio[..count]);
    }

    /** One packet: whole pieces are copied into the frame that is being filled. */
    method AcceptAudio(audio: seq<C.Byte>)
      requires Valid()
      modifies this, capture, queue
      ensures Valid() && Now() == Send(c, loud, old(Now()), audio)
    {
      hide Inv;
      var offset := 0;
      while offset < |audio| && !queue.closed
        invariant 0 <= offset <= |audio| && Valid()
        invariant Send(c, loud, Now(), audio[offset..]) == Send(c, loud, old(Now()), audio)
        decreases |audio| - offset
      {
        var count := TakePiece(audio[offset..]);
        assert audio[offset..][count..] == audio[offset + count..];
        offset := offset + count;
      }
    }

    method CrossBoundary()
      requires Valid() && !queue.closed && inputFrame == []
      modifies this, capture, queue
      ensures Valid() && Now() == Ended(c, old(Now()))
    {
      hide Q.Kept;
      EndedKeeps(c, Now());
      BoundaryIsOneStep(c, capture.Now());
      ghost var before := capture.Now();
      var cut := capture.FinishInput();
      past := past + [Crossed];
      Forward(false, cut, before);
    }

    method FinishInput()
      requires Valid()
      modifies this, capture, queue
      ensures Valid() && Now() == Ended(c, old(Now()))
    {
      if !queue.closed && inputFrame == [] { CrossBoundary(); }
    }

    method InputGap()
      requires Valid()
      modifies this, capture, queue
      ensures Valid() && Now() == Interrupted(old(Now()))
    {
      InterruptedKeeps(c, Now());
      if queue.closed { return; }
      queue.DropTurn();
      capture.DropInput();
      inputFrame, past := [], past + [Missed];
    }
  }

  function Filled(c: C.Settings, loud: Ear, s: State, piece: seq<C.Byte>): State
    requires Inv(c, s) && !s.queue.closed
  {
    var all := s.partial + piece;
    if |all| < C.FrameBytes(c) then s.(partial := all) else HearAudio(c, loud, s, all)
  }

  lemma {:induction false} FirstByteFills(c: C.Settings, loud: Ear, s: State, piece: seq<C.Byte>)
    requires Inv(c, s) && !s.queue.closed && |piece| > 1 && |s.partial| + |piece| <= C.FrameBytes(c)
    ensures var next := s.(partial := s.partial + [piece[0]]);
            && Byte(c, loud, s, piece[0]) == next && Inv(c, next)
            && Filled(c, loud, next, piece[1..]) == Filled(c, loud, s, piece)
  {
    hide Inv;
    ByteKeeps(c, loud, s, piece[0]);
    assert s.partial + piece == (s.partial + [piece[0]]) + piece[1..];
  }

  /** Filling the frame with a whole piece is sending the piece byte by byte. */
  lemma {:induction false} PieceFills(
      c: C.Settings, loud: Ear, s: State, piece: seq<C.Byte>, more: seq<C.Byte>)
    requires Inv(c, s) && !s.queue.closed && piece != [] && |s.partial| + |piece| <= C.FrameBytes(c)
    ensures Inv(c, Filled(c, loud, s, piece))
    ensures Send(c, loud, s, piece + more) == Send(c, loud, Filled(c, loud, s, piece), more)
    decreases |piece|
  {
    hide Inv;
    assert (piece + more)[1..] == piece[1..] + more && (piece + more)[0] == piece[0];
    if |piece| == 1 {
      ByteKeeps(c, loud, s, piece[0]);
      assert piece == [piece[0]] && piece[1..] + more == more;
    } else {
      FirstByteFills(c, loud, s, piece);
      PieceFills(c, loud, s.(partial := s.partial + [piece[0]]), piece[1..], more);
    }
  }
}
