/** Framing, onset detection, pre-roll and batching of a realtime session's input (`analyzeFrame`,
    `retainPreRoll`, `finishTurn`, `resetTurn` and `finishInputBoundary` in
    packages/openclaw-local-media/src/realtime-transcription-provider.ts).

    A frame is 20 ms of audio; whether it is loud is decided outside this model.  `frames`, `onsets`
    and `batches` record the whole run: a frame is known by its place among the frames analysed.
 */
module SpeechCapture {

  type Byte = bv8

  datatype Frame = Frame(audio: seq<Byte>, loud: bool)

  const FRAME_MS: nat := 20

  datatype Settings = Settings(
    enhanced: bool, onsetMs: real, silenceMs: real, preRollMs: real, minSpeechMs: real, maxUtteranceMs: real,
    clientInputEnd: bool)

  /** What normalizeConfig lets through. */
  predicate Normalized(c: Settings) {
    && 20.0 <= c.onsetMs <= 1000.0
    && 200.0 <= c.silenceMs <= 5000.0
    && 0.0 <= c.preRollMs <= 2000.0
    && 20.0 <= c.minSpeechMs <= 3000.0
    && 1000.0 <= c.maxUtteranceMs <= 120000.0
  }

  /** Enhanced input is 16-bit audio at 16 kHz, 32 bytes a millisecond; plain input has 8. */
  function FrameBytes(c: Settings): nat { if c.enhanced then 640 else 160 }

  function MsOf(c: Settings, bytes: nat): real { if c.enhanced then bytes as real / 32.0 else bytes as real / 8.0 }

  function RollBytes(c: Settings): int { if c.enhanced then (c.preRollMs * 32.0).Floor else (c.preRollMs * 8.0).Floor }

  /** The run of loud frames `first..at` that opened a turn. */
  datatype Onset = Onset(first: nat, at: nat)

  /** What finishTurn takes: the frames `lo..hi` of a turn, its last when `endpoint`; `explicit` when the
      client ended the input. */
  datatype Batch = Batch(
    turn: nat, lo: nat, hi: nat, audio: seq<Frame>, explicit: bool, endpoint: bool, transcribe: bool)

  datatype State = State(
    speaking: bool, onsetMs: nat, quietMs: nat, speechMs: nat, preRoll: seq<Frame>, utterance: seq<Frame>,
    turn: nat, minimumReached: bool, frames: seq<Frame>, onsets: seq<Onset>, batches: seq<Batch>)

  function Start(): State { State(false, 0, 0, 0, [], [], 0, false, [], [], []) }

  // ----- the handlers

  function RollFrames(c: Settings): int { if c.enhanced then RollBytes(c) / 640 else RollBytes(c) / 160 }

  /** The newest frames that fit the pre-roll, but at least one unless pre-roll is off. */
  function Retain(c: Settings, preRoll: seq<Frame>, frame: Frame): seq<Frame>
    requires Normalized(c)
  {
    var all := preRoll + [frame];
    if RollBytes(c) <= 0 then []
    else if |all| <= RollFrames(c) then all
    else if RollFrames(c) <= 1 then [frame]
    else all[|all| - RollFrames(c)..]
  }

  function Reset(s: State): State {
    s.(speaking := false, onsetMs := 0, quietMs := 0, speechMs := 0, utterance := [])
  }

  function Ms(frames: seq<Frame>): real { (|frames| * FRAME_MS) as real }

  function Least(a: real, b: real): real { if a <= b then a else b }

  predicate SilenceReached(c: Settings, s: State) { !c.clientInputEnd && s.quietMs as real >= c.silenceMs }

  predicate MustCut(c: Settings, s: State) {
    || SilenceReached(c, s)
    || (Ms(s.utterance) >= c.maxUtteranceMs - Least(400.0, c.maxUtteranceMs / 5.0) && s.quietMs >= 80)
    || Ms(s.utterance) >= c.maxUtteranceMs
  }

  function FinishTurn(c: Settings, s: State, explicit: bool): State
    requires |s.utterance| <= |s.frames|
  {
    var endpoint := explicit || SilenceReached(c, s);
    var minimum := s.minimumReached || s.speechMs as real >= c.minSpeechMs;
    var transcribe := (!endpoint || minimum) && (s.utterance != [] || explicit);
    var taken := Batch(s.turn, |s.frames| - |s.utterance|, |s.frames|, s.utterance, explicit, endpoint, transcribe);
    var u := s.(minimumReached := minimum, batches := s.batches + [taken]);
    if endpoint then Reset(u) else u.(utterance := [])
  }

  function Timed(s: State, loud: bool): State { s.(quietMs := if loud then 0 else s.quietMs + FRAME_MS) }

  function Listen(c: Settings, s: State, loud: bool): State
    requires |s.utterance| <= |s.frames|
  {
    var u := Timed(s, loud);
    if MustCut(c, u) then FinishTurn(c, u, false) else u
  }

  function OpenTurn(s: State): State
    requires s.onsetMs <= FRAME_MS * |s.frames|
  {
    s.(speaking := true, turn := s.turn + 1, minimumReached := false, speechMs := s.onsetMs,
       utterance := s.preRoll, preRoll := [],
       onsets := s.onsets + [Onset(|s.frames| - s.onsetMs / FRAME_MS, |s.frames|)])
  }

  function Extend(s: State, frame: Frame): State {
    s.(frames := s.frames + [frame], utterance := s.utterance + [frame],
       speechMs := s.speechMs + if frame.loud then FRAME_MS else 0)
  }

  function Wait(c: Settings, s: State, frame: Frame): State
    requires Normalized(c)
  {
    s.(frames := s.frames + [frame], preRoll := Retain(c, s.preRoll, frame),
       onsetMs := if frame.loud then s.onsetMs + FRAME_MS else 0)
  }

  function Hear(c: Settings, s: State, frame: Frame): State
    requires Normalized(c) && Inv(c, s)
  {
    if s.speaking then
      Listen(c, Extend(s, frame), frame.loud)
    else
      var u := Wait(c, s, frame);
      if u.onsetMs as real < c.onsetMs then u else Listen(c, OpenTurn(u), frame.loud)
  }

  /** An explicit end of the input. */
  function Boundary(c: Settings, s: State): State
    requires |s.utterance| <= |s.frames|
  {
    (if s.speaking then FinishTurn(c, s, true) else Reset(s)).(preRoll := [])
  }

  /** A transport gap, a failure or the end of the session drops what was being captured. */
  function Drop(s: State): State { Reset(s).(preRoll := []) }

  datatype Event = Heard(frame: Frame) | InputEnds | Interrupted

  function Apply(c: Settings, s: State, event: Event): State
    requires Normalized(c) && Inv(c, s)
  {
    match event
    case Heard(frame) => Hear(c, s, frame)
    case InputEnds => Boundary(c, s)
    case Interrupted => Drop(s)
  }

  // ----- the invariant

  predicate SuffixOf(part: seq<Frame>, frames: seq<Frame>) {
    |part| <= |frames| && part == frames[|frames| - |part|..]
  }

  function LoudFrames(frames: seq<Frame>): nat {
    if frames == [] then 0 else LoudFrames(frames[..|frames| - 1]) + if frames[|frames| - 1].loud then 1 else 0
  }

  /** How many frames since the last loud one. */
  function QuietRun(frames: seq<Frame>): nat {
    if frames == [] || frames[|frames| - 1].loud then 0 else QuietRun(frames[..|frames| - 1]) + 1
  }

  /** The silence that ends a turn, after `frames`. */
  predicate SilentAfter(c: Settings, frames: seq<Frame>) {
    !c.clientInputEnd && (FRAME_MS * QuietRun(frames)) as real >= c.silenceMs
  }

  predicate AllLoud(frames: seq<Frame>) { forall i :: 0 <= i < |frames| ==> frames[i].loud }

  function Limit(c: Settings): real {
    if c.preRollMs <= c.maxUtteranceMs + FRAME_MS as real then c.maxUtteranceMs + FRAME_MS as real else c.preRollMs
  }

  /** One batch of a run: its audio is the frames it names, and is never too long. */
  predicate Faithful(c: Settings, b: Batch, frames: seq<Frame>, onsets: seq<Onset>) {
    && b.lo <= b.hi <= |frames| && b.audio == frames[b.lo..b.hi] && Ms(b.audio) <= Limit(c)
    && 1 <= b.turn <= |onsets|
    && onsets[b.turn - 1].first <= b.hi
    && (b.endpoint ==>
          (b.transcribe <==>
             (FRAME_MS * LoudFrames(frames[onsets[b.turn - 1].first..b.hi])) as real >= c.minSpeechMs))
    && (!b.endpoint ==> b.transcribe && Ms(b.audio) >= c.maxUtteranceMs - Least(400.0, c.maxUtteranceMs / 5.0))
    && (b.endpoint <==> b.explicit || SilentAfter(c, frames[..b.hi]))
  }

  predicate Follows(a: Batch, b: Batch) {
    && a.turn <= b.turn && a.hi <= b.lo
    && (a.turn == b.turn ==> a.hi == b.lo && !a.endpoint)
  }

  predicate OpenedBySpeech(c: Settings, o: Onset, frames: seq<Frame>) {
    && o.first <= o.at <= |frames| && AllLoud(frames[o.first..o.at])
    && (FRAME_MS * (o.at - o.first)) as real >= c.onsetMs
  }

  /** The parts in hand are the newest frames analysed. */
  ghost predicate InHand(c: Settings, s: State) {
    && SuffixOf(s.preRoll, s.frames) && SuffixOf(s.utterance, s.frames)
    && (s.speaking ==> s.preRoll == [] && Ms(s.utterance) < c.maxUtteranceMs && !SilenceReached(c, s))
    && (!s.speaking ==> s.utterance == [] && s.quietMs == 0)
    && (Ms(s.preRoll) <= c.preRollMs || |s.preRoll| <= 1)
  }

  ghost predicate Counted(c: Settings, s: State) {
    && |s.onsets| == s.turn
    && (!s.speaking ==>
          s.onsetMs % FRAME_MS == 0 && s.onsetMs / FRAME_MS <= |s.frames| &&
          AllLoud(s.frames[|s.frames| - s.onsetMs / FRAME_MS..]))
    && (s.speaking ==>
          s.turn > 0 && s.onsets[s.turn - 1].first <= |s.frames| && s.quietMs == FRAME_MS * QuietRun(s.frames) &&
          s.speechMs == FRAME_MS * LoudFrames(s.frames[s.onsets[s.turn - 1].first..]) &&
          (s.minimumReached ==> s.speechMs as real >= c.minSpeechMs))
  }

  ghost predicate Recorded(c: Settings, s: State) {
    && (forall k :: 0 <= k < |s.onsets| ==> OpenedBySpeech(c, s.onsets[k], s.frames))
    && (forall k :: 0 <= k < |s.batches| ==> Faithful(c, s.batches[k], s.frames, s.onsets))
    && (forall k :: 0 < k < |s.batches| ==> Follows(s.batches[k - 1], s.batches[k]))
  }

  /** The newest batch ends where the frames in hand begin, if it is of the turn that is going on. */
  ghost predicate Joined(s: State) {
    s.batches != [] ==>
      var last := s.batches[|s.batches| - 1];
      && last.turn <= s.turn
      && last.hi <= |s.frames| - |s.preRoll| && last.hi <= |s.frames| - |s.utterance|
      && (s.speaking && last.turn == s.turn ==> last.hi == |s.frames| - |s.utterance| && !last.endpoint)
  }

  ghost predicate Inv(c: Settings, s: State) { InHand(c, s) && Counted(c, s) && Recorded(c, s) && Joined(s) }

  // ----- each event keeps it

  lemma SliceGrows(frames: seq<Frame>, frame: Frame, lo: nat, hi: nat)
    requires lo <= hi <= |frames|
    ensures (frames + [frame])[lo..hi] == frames[lo..hi]
  {
  }

  lemma SuffixGrows(part: seq<Frame>, frames: seq<Frame>, frame: Frame)
    requires SuffixOf(part, frames)
    ensures SuffixOf(part + [frame], frames + [frame])
  {
    assert part + [frame] == (frames + [frame])[|frames| - |part|..];
  }

  lemma RetainsNewest(c: Settings, preRoll: seq<Frame>, frames: seq<Frame>, frame: Frame)
    requires Normalized(c) && SuffixOf(preRoll, frames)
    ensures SuffixOf(Retain(c, preRoll, frame), frames + [frame])
    ensures |Retain(c, preRoll, frame)| <= |preRoll| + 1
    ensures var roll := Retain(c, preRoll, frame); Ms(roll) <= c.preRollMs || |roll| <= 1
  {
    SuffixGrows(preRoll, frames, frame);
    var all, roll := preRoll + [frame], Retain(c, preRoll, frame);
    assert |roll| <= |all| && roll == all[|all| - |roll|..];
    if |roll| > 1 { RollFits(c, |roll|); }
  }

  lemma RollFits(c: Settings, n: nat)
    requires Normalized(c) && n <= RollFrames(c)
    ensures (n * FRAME_MS) as real <= c.preRollMs
  {
    if c.enhanced {
      assert 640 * n <= RollBytes(c);
    } else {
      assert 160 * n <= RollBytes(c);
    }
  }

  lemma LoudAppend(frames: seq<Frame>, frame: Frame, first: nat)
    requires first <= |frames|
    ensures LoudFrames((frames + [frame])[first..]) == LoudFrames(frames[first..]) + if frame.loud then 1 else 0
  {
    var grown := (frames + [frame])[first..];
    assert grown[..|grown| - 1] == frames[first..];
  }

  lemma {:induction false} AllLoudCounts(frames: seq<Frame>)
    requires AllLoud(frames)
    ensures LoudFrames(frames) == |frames|
    decreases |frames|
  {
    if frames != [] { AllLoudCounts(frames[..|frames| - 1]); }
  }

  lemma FramesGrow(c: Settings, s: State, frame: Frame)
    requires Recorded(c, s)
    ensures Recorded(c, s.(frames := s.frames + [frame]))
  {
    var grown := s.frames + [frame];
    forall k | 0 <= k < |s.onsets|
      ensures OpenedBySpeech(c, s.onsets[k], grown)
    {
      assert OpenedBySpeech(c, s.onsets[k], s.frames);
      SliceGrows(s.frames, frame, s.onsets[k].first, s.onsets[k].at);
    }
    forall k | 0 <= k < |s.batches|
      ensures Faithful(c, s.batches[k], grown, s.onsets)
    {
      var b := s.batches[k];
      assert Faithful(c, b, s.frames, s.onsets);
      SliceGrows(s.frames, frame, b.lo, b.hi);
      SliceGrows(s.frames, frame, s.onsets[b.turn - 1].first, b.hi);
      assert grown[..b.hi] == s.frames[..b.hi];
    }
  }

  /** The state in which a turn decides whether to cut. */
  ghost predicate Deciding(c: Settings, s: State) {
    && Normalized(c) && s.speaking && s.preRoll == [] && SuffixOf(s.utterance, s.frames)
    && Ms(s.utterance) <= Limit(c) && (s.utterance == [] ==> s.quietMs == 0)
    && Counted(c, s) && Recorded(c, s) && Joined(s)
  }

  lemma TakenIsFaithful(c: Settings, s: State, explicit: bool)
    requires Normalized(c) && s.speaking && SuffixOf(s.utterance, s.frames) && Ms(s.utterance) <= Limit(c)
    requires Counted(c, s) && (explicit || (MustCut(c, s) && (s.utterance == [] ==> s.quietMs == 0)))
    ensures var u := FinishTurn(c, s, explicit);
            u.batches == s.batches + [u.batches[|s.batches|]] &&
            Faithful(c, u.batches[|s.batches|], s.frames, s.onsets)
  {
    var b := FinishTurn(c, s, explicit).batches[|s.batches|];
    assert b.audio == s.frames[b.lo..b.hi] && s.frames[..b.hi] == s.frames;
    assert s.frames[s.onsets[s.turn - 1].first..b.hi] == s.frames[s.onsets[s.turn - 1].first..];
    assert c.maxUtteranceMs - Least(400.0, c.maxUtteranceMs / 5.0) > 0.0;
  }

  lemma {:induction false} FinishRecords(c: Settings, s: State, explicit: bool)
    requires Normalized(c) && Recorded(c, s) && Joined(s) && s.speaking && SuffixOf(s.utterance, s.frames)
    requires var u := FinishTurn(c, s, explicit);
             u.batches == s.batches + [u.batches[|s.batches|]] &&
             Faithful(c, u.batches[|s.batches|], s.frames, s.onsets)
    ensures Recorded(c, FinishTurn(c, s, explicit))
  {
    var u := FinishTurn(c, s, explicit);
    forall k | 0 < k < |u.batches|
      ensures Follows(u.batches[k - 1], u.batches[k])
    {
      if k < |s.batches| { assert Follows(s.batches[k - 1], s.batches[k]); }
    }
  }

  lemma FinishCounts(c: Settings, s: State, explicit: bool)
    requires Counted(c, s) && s.speaking && |s.utterance| <= |s.frames|
    ensures Counted(c, FinishTurn(c, s, explicit))
  {
    assert s.frames[|s.frames|..] == [];
  }

  lemma FinishJoins(c: Settings, s: State, explicit: bool)
    requires Joined(s) && s.speaking && s.preRoll == [] && |s.utterance| <= |s.frames|
    ensures Joined(FinishTurn(c, s, explicit))
  {
  }

  lemma FinishKeeps(c: Settings, s: State, explicit: bool)
    requires Deciding(c, s) || (explicit && Normalized(c) && Inv(c, s) && s.speaking)
    requires explicit || MustCut(c, s)
    ensures Inv(c, FinishTurn(c, s, explicit))
  {
    hide Faithful, OpenedBySpeech, LoudFrames, AllLoud, Follows;
    TakenIsFaithful(c, s, explicit);
    FinishRecords(c, s, explicit);
    FinishCounts(c, s, explicit);
    FinishJoins(c, s, explicit);
    assert s.frames[|s.frames|..] == [];
  }

  lemma {:induction false} ListenKeeps(c: Settings, s: State, loud: bool)
    requires Deciding(c, Timed(s, loud))
    ensures Inv(c, Listen(c, s, loud))
  {
    if MustCut(c, Timed(s, loud)) { FinishKeeps(c, Timed(s, loud), false); }
  }

  lemma SameRecorded(c: Settings, s: State, u: State)
    requires Recorded(c, s) && u.frames == s.frames && u.onsets == s.onsets && u.batches == s.batches
    ensures Recorded(c, u)
  {
  }

  lemma ContinueCounts(c: Settings, s: State, u: State, frame: Frame)
    requires Counted(c, s) && s.speaking
    requires u.frames == s.frames + [frame] && u.speaking && u.turn == s.turn && u.onsets == s.onsets
    requires u.speechMs == s.speechMs + (if frame.loud then FRAME_MS else 0) && u.minimumReached == s.minimumReached
    requires u.quietMs == if frame.loud then 0 else s.quietMs + FRAME_MS
    ensures Counted(c, u)
  {
    assert u.frames[..|u.frames| - 1] == s.frames;
    LoudAppend(s.frames, frame, s.onsets[s.turn - 1].first);
  }

  lemma ExtendDecides(c: Settings, s: State, frame: Frame)
    requires Normalized(c) && Inv(c, s) && s.speaking
    ensures Deciding(c, Timed(Extend(s, frame), frame.loud))
  {
    var v := Timed(Extend(s, frame), frame.loud);
    FramesGrow(c, s, frame);
    SameRecorded(c, s.(frames := s.frames + [frame]), v);
    SuffixGrows(s.utterance, s.frames, frame);
    ContinueCounts(c, s, v, frame);
    ExtendJoins(s, frame);
  }

  lemma ExtendJoins(s: State, frame: Frame)
    requires Joined(s) && s.speaking && s.preRoll == []
    ensures Joined(Timed(Extend(s, frame), frame.loud))
  {
  }

  lemma LoudRunGrows(frames: seq<Frame>, frame: Frame, run: nat)
    requires run <= |frames| && AllLoud(frames[|frames| - run..]) && frame.loud
    ensures AllLoud((frames + [frame])[|frames| - run..])
  {
    assert (frames + [frame])[|frames| - run..] == frames[|frames| - run..] + [frame];
  }

  lemma WaitCountsOn(c: Settings, s: State, frame: Frame)
    requires Normalized(c) && Counted(c, s) && !s.speaking
    ensures Counted(c, Wait(c, s, frame))
  {
    hide AllLoud, LoudFrames, QuietRun, Retain;
    var grown, run := s.frames + [frame], s.onsetMs / FRAME_MS;
    if frame.loud {
      LoudRunGrows(s.frames, frame, run);
      assert (s.onsetMs + FRAME_MS) / FRAME_MS == run + 1;
      assert |grown| - (run + 1) == |s.frames| - run;
    } else {
      NothingIsLoud(grown);
    }
  }

  lemma NothingIsLoud(frames: seq<Frame>)
    ensures AllLoud(frames[|frames|..])
  {
  }

  lemma WaitKeeps(c: Settings, s: State, frame: Frame)
    requires Normalized(c) && Inv(c, s) && !s.speaking
    ensures Inv(c, Wait(c, s, frame))
  {
    hide Faithful, OpenedBySpeech, Follows, LoudFrames, QuietRun, AllLoud;
    FramesGrow(c, s, frame);
    SameRecorded(c, s.(frames := s.frames + [frame]), Wait(c, s, frame));
    RetainsNewest(c, s.preRoll, s.frames, frame);
    WaitCountsOn(c, s, frame);
  }

  lemma OpenCounts(c: Settings, s: State)
    requires Normalized(c) && Counted(c, s) && !s.speaking && s.onsetMs as real >= c.onsetMs && s.quietMs == 0
    ensures var v := OpenTurn(s);
            Counted(c, v) && OpenedBySpeech(c, v.onsets[s.turn], v.frames)
  {
    var first := |s.frames| - s.onsetMs / FRAME_MS;
    AllLoudCounts(s.frames[first..]);
    assert s.frames[first..] == s.frames[first..|s.frames|];
    assert s.frames[first..][|s.frames| - first - 1] == s.frames[|s.frames| - 1];
  }

  lemma {:induction false} OpenDecides(c: Settings, s: State)
    requires Normalized(c) && Inv(c, s) && !s.speaking && s.onsetMs as real >= c.onsetMs
    ensures Deciding(c, Timed(OpenTurn(s), true))
  {
    var v := Timed(OpenTurn(s), true);
    OpenCounts(c, s);
    OnsetsGrow(c, s, v);
  }

  lemma OnsetsGrow(c: Settings, s: State, u: State)
    requires Recorded(c, s) && u.frames == s.frames && u.batches == s.batches && |u.onsets| == |s.onsets| + 1
    requires u.onsets[..|s.onsets|] == s.onsets && OpenedBySpeech(c, u.onsets[|s.onsets|], u.frames)
    ensures Recorded(c, u)
  {
    assert forall k :: 0 <= k < |s.onsets| ==> u.onsets[k] == s.onsets[k];
  }

  lemma HearKeeps(c: Settings, s: State, frame: Frame)
    requires Normalized(c) && Inv(c, s)
    ensures Inv(c, Hear(c, s, frame))
  {
    if s.speaking {
      ExtendDecides(c, s, frame);
      ListenKeeps(c, Extend(s, frame), frame.loud);
    } else {
      WaitKeeps(c, s, frame);
      var u := Wait(c, s, frame);
      if u.onsetMs as real >= c.onsetMs {
        OpenDecides(c, u);
        ListenKeeps(c, OpenTurn(u), true);
      }
    }
  }

  lemma DropKeeps(c: Settings, s: State)
    requires Normalized(c) && Inv(c, s)
    ensures Inv(c, Drop(s))
  {
    assert s.frames[|s.frames|..] == [];
  }

  lemma {:induction false} BoundaryKeeps(c: Settings, s: State)
    requires Normalized(c) && Inv(c, s)
    ensures Inv(c, Boundary(c, s))
  {
    if s.speaking {
      FinishKeeps(c, s, true);
    } else {
      DropKeeps(c, s);
    }
  }

  lemma {:induction false} ApplyKeeps(c: Settings, s: State, event: Event)
    requires Normalized(c) && Inv(c, s)
    ensures Inv(c, Apply(c, s, event))
  {
    match event
    case Heard(frame) => HearKeeps(c, s, frame);
    case InputEnds => BoundaryKeeps(c, s);
    case Interrupted => DropKeeps(c, s);
  }

  // ----- whole runs

  function Run(c: Settings, s: State, events: seq<Event>): State
    requires Normalized(c) && Inv(c, s)
    decreases |events|
  {
    if events == [] then s else
      ApplyKeeps(c, s, events[0]);
      Run(c, Apply(c, s, events[0]), events[1..])
  }

  lemma {:induction false} RunKeeps(c: Settings, s: State, events: seq<Event>)
    requires Normalized(c) && Inv(c, s)
    ensures Inv(c, Run(c, s, events))
    decreases |events|
  {
    if events != [] {
      ApplyKeeps(c, s, events[0]);
      RunKeeps(c, Apply(c, s, events[0]), events[1..]);
    }
  }

  ghost predicate Reached(c: Settings, events: seq<Event>, s: State) {
    Normalized(c) && Inv(c, Start()) && s == Run(c, Start(), events)
  }

  function Audio(batches: seq<Batch>): seq<Frame> {
    if batches == [] then [] else Audio(batches[..|batches| - 1]) + batches[|batches| - 1].audio
  }

  /** Batches `k` to `l` come in order; if they are all of one turn they are one run of frames. */
  ghost predicate Chained(s: State, k: nat, l: nat)
    requires k <= l < |s.batches|
  {
    var a, b := s.batches[k], s.batches[l];
    && a.turn <= b.turn && a.lo <= a.hi && b.lo <= b.hi <= |s.frames|
    && (k < l ==> a.hi <= b.lo)
    && (k < l && a.endpoint ==> a.turn < b.turn)
    && (a.turn == b.turn ==> a.lo <= b.hi && Audio(s.batches[k..l + 1]) == s.frames[a.lo..b.hi])
  }

  lemma AudioAppend(batches: seq<Batch>, k: nat, l: nat)
    requires k <= l < |batches|
    ensures Audio(batches[k..l + 1]) == Audio(batches[k..l]) + batches[l].audio
  {
    var part := batches[k..l + 1];
    assert part[..|part| - 1] == batches[k..l] && part[|part| - 1] == batches[l];
  }

  lemma {:induction false} BatchesChain(c: Settings, s: State, k: nat, l: nat)
    requires Recorded(c, s) && k <= l < |s.batches|
    ensures Chained(s, k, l)
    decreases l - k
  {
    hide LoudFrames, QuietRun, AllLoud, OpenedBySpeech, SilentAfter;
    AudioAppend(s.batches, k, l);
    assert Faithful(c, s.batches[l], s.frames, s.onsets);
    if k < l {
      BatchesChain(c, s, k, l - 1);
      assert Follows(s.batches[l - 1], s.batches[l]);
      if s.batches[k].turn == s.batches[l].turn {
        SlicesMeet(s.frames, s.batches[k].lo, s.batches[l].lo, s.batches[l].hi);
      }
    } else {
      assert s.batches[k..l] == [];
    }
  }

  lemma SlicesMeet(frames: seq<Frame>, lo: nat, mid: nat, hi: nat)
    requires lo <= mid <= hi <= |frames|
    ensures frames[lo..mid] + frames[mid..hi] == frames[lo..hi]
  {
  }

  /** The batches of one turn, put together, are one contiguous run of the frames heard, and only the
      last of them can be an endpoint. */
  lemma TurnIsContiguous(c: Settings, events: seq<Event>, s: State, k: nat, l: nat)
    requires Reached(c, events, s) && k <= l < |s.batches| && s.batches[k].turn == s.batches[l].turn
    ensures s.batches[k].lo <= s.batches[l].hi <= |s.frames|
    ensures Audio(s.batches[k..l + 1]) == s.frames[s.batches[k].lo..s.batches[l].hi]
    ensures k < l ==> !s.batches[k].endpoint
  {
    RunKeeps(c, Start(), events);
    BatchesChain(c, s, k, l);
  }

  /** Different turns take disjoint runs of frames, in turn order. */
  lemma TurnsAreApart(c: Settings, events: seq<Event>, s: State, k: nat, l: nat)
    requires Reached(c, events, s) && k < l < |s.batches| && s.batches[k].turn != s.batches[l].turn
    ensures s.batches[k].turn < s.batches[l].turn
    ensures s.batches[k].lo <= s.batches[k].hi <= s.batches[l].lo <= s.batches[l].hi <= |s.frames|
  {
    RunKeeps(c, Start(), events);
    BatchesChain(c, s, k, l);
    assert Faithful(c, s.batches[k], s.frames, s.onsets) && Faithful(c, s.batches[l], s.frames, s.onsets);
  }

  lemma BatchesAreBounded(c: Settings, events: seq<Event>, s: State, k: nat)
    requires Reached(c, events, s) && k < |s.batches|
    ensures Ms(s.batches[k].audio) <= c.maxUtteranceMs + FRAME_MS as real || Ms(s.batches[k].audio) <= c.preRollMs
  {
    RunKeeps(c, Start(), events);
    assert Faithful(c, s.batches[k], s.frames, s.onsets);
  }

  /** A turn opens with an unbroken run of loud frames as long as the onset time; its end is sent on
      exactly when the loud frames from there on last the minimum; its earlier parts always are. */
  lemma SpeechDecides(c: Settings, events: seq<Event>, s: State, k: nat)
    requires Reached(c, events, s) && k < |s.batches|
    ensures 1 <= s.batches[k].turn <= |s.onsets|
    ensures var o := s.onsets[s.batches[k].turn - 1];
            && OpenedBySpeech(c, o, s.frames) && o.first <= s.batches[k].hi <= |s.frames|
            && (s.batches[k].transcribe <==>
                  !s.batches[k].endpoint ||
                  (FRAME_MS * LoudFrames(s.frames[o.first..s.batches[k].hi])) as real >= c.minSpeechMs)
  {
    RunKeeps(c, Start(), events);
    assert Faithful(c, s.batches[k], s.frames, s.onsets);
    assert OpenedBySpeech(c, s.onsets[s.batches[k].turn - 1], s.frames);
  }

  /** A turn is ended by silence at the first frame at which the silence is long enough, or by an
      explicit end, and by nothing else; a part is cut off only near the maximum. */
  lemma SilenceEndsTurns(c: Settings, events: seq<Event>, s: State, k: nat)
    requires Reached(c, events, s)
    ensures s.speaking ==> !SilentAfter(c, s.frames)
    ensures k < |s.batches| ==>
              && s.batches[k].hi <= |s.frames|
              && (s.batches[k].endpoint <==> s.batches[k].explicit || SilentAfter(c, s.frames[..s.batches[k].hi]))
              && (!s.batches[k].endpoint ==>
                    Ms(s.batches[k].audio) >= c.maxUtteranceMs - Least(400.0, c.maxUtteranceMs / 5.0))
  {
    RunKeeps(c, Start(), events);
    if k < |s.batches| { assert Faithful(c, s.batches[k], s.frames, s.onsets); }
  }

  // ----- the session's variables

  function Bytes(frames: seq<Frame>): nat {
    if frames == [] then 0 else |frames[0].audio| + Bytes(frames[1..])
  }

  predicate WholeFrames(c: Settings, frames: seq<Frame>) {
    forall k :: 0 <= k < |frames| ==> |frames[k].audio| == FrameBytes(c)
  }

  /** What the transcription queue is given of a batch. */
  datatype Cut = NoCut | Part | End(audio: bool, transcribe: bool)

  ghost function CutOf(before: State, after: State): Cut {
    if after.batches == before.batches || after.batches == [] then NoCut
    else
      var last := after.batches[|after.batches| - 1];
      if last.endpoint then End(last.audio != [], last.transcribe) else Part
  }

  class Capture {
    const c: Settings
    var speaking: bool
    var onsetMs: nat
    var quietMs: nat
    var speechMs: nat
    var preRoll: seq<Frame>
    var preRollBytes: nat
    var utterance: seq<Frame>
    var utteranceBytes: nat
    var turn: nat
    var minimumReached: bool
    ghost var frames: seq<Frame>
    ghost var onsets: seq<Onset>
    ghost var batches: seq<Batch>

    ghost function Now(): State
      reads this
    {
      State(speaking, onsetMs, quietMs, speechMs, preRoll, utterance, turn, minimumReached, frames, onsets, batches)
    }

    /** The byte counters agree with what is held; every frame is complete. */
    ghost predicate Sized()
      reads this
    {
      && Normalized(c) && WholeFrames(c, preRoll) && WholeFrames(c, utterance)
      && preRollBytes == Bytes(preRoll) && utteranceBytes == Bytes(utterance)
    }

    constructor (c: Settings)
      requires Normalized(c)
      ensures this.c == c && Sized() && Now() == Start()
    {
      this.c := c;
      speaking, onsetMs, quietMs, speechMs := false, 0, 0, 0;
      preRoll, preRollBytes, utterance, utteranceBytes := [], 0, [], 0;
      turn, minimumReached, frames, onsets, batches := 0, false, [], [], [];
    }

    /** Old frames leave until the rest fits, but the newest frame always stays. */
    method ShiftUntilFits()
      requires RollBytes(c) > 0 && preRoll != [] && WholeFrames(c, preRoll) && preRollBytes == Bytes(preRoll)
      modifies `preRoll, `preRollBytes
      ensures WholeFrames(c, preRoll) && preRollBytes == Bytes(preRoll) && 1 <= |preRoll| <= |old(preRoll)|
      ensures preRoll == old(preRoll)[|old(preRoll)| - |preRoll|..]
      ensures |preRoll| <= RollFrames(c) || |preRoll| == 1
      ensures |preRoll| == |old(preRoll)| || |preRoll| >= RollFrames(c)
    {
      while preRollBytes > RollBytes(c) && |preRoll| > 1
        invariant 1 <= |preRoll| <= |old(preRoll)| && preRoll == old(preRoll)[|old(preRoll)| - |preRoll|..]
        invariant |preRoll| == |old(preRoll)| || |preRoll| >= RollFrames(c)
        invariant WholeFrames(c, preRoll) && preRollBytes == Bytes(preRoll)
        decreases |preRoll|
      {
        Fits(c, preRoll);
        preRollBytes := preRollBytes - |preRoll[0].audio|;
        preRoll := preRoll[1..];
      }
      Fits(c, preRoll);
    }

    method RetainPreRoll(frame: Frame)
      requires Sized() && |frame.audio| == FrameBytes(c)
      modifies `preRoll, `preRollBytes
      ensures Sized() && preRoll == Retain(c, old(preRoll), frame)
    {
      if RollBytes(c) <= 0 {
        preRoll, preRollBytes := [], 0;
        return;
      }
      BytesAppend(preRoll, frame);
      preRoll := preRoll + [frame];
      preRollBytes := preRollBytes + |frame.audio|;
      ShiftUntilFits();
      RetainedIs(c, old(preRoll), frame, preRoll);
    }

    method ResetTurn()
      modifies this
      ensures Now() == Reset(old(Now())) && (old(Sized()) ==> Sized())
    {
      speaking, onsetMs, quietMs, speechMs := false, 0, 0, 0;
      utterance, utteranceBytes := [], 0;
    }

    method TakeTurn(explicit: bool) returns (cut: Cut)
      requires Sized() && |utterance| <= |frames|
      modifies this
      ensures Sized() && Now() == FinishTurn(c, old(Now()), explicit) && cut == CutOf(old(Now()), Now())
    {
      hide Normalized, WholeFrames, Bytes;
      NoFrames(c);
      var endpoint := explicit || (!c.clientInputEnd && quietMs as real >= c.silenceMs);
      minimumReached := minimumReached || speechMs as real >= c.minSpeechMs;
      var transcribe := (!endpoint || minimumReached) && (utterance != [] || explicit);
      batches := batches + [Batch(turn, |frames| - |utterance|, |frames|, utterance, explicit, endpoint, transcribe)];
      cut := if endpoint then End(utterance != [], transcribe) else Part;
      if endpoint {
        ResetTurn();
      } else {
        utterance, utteranceBytes := [], 0;
      }
    }

    method StartTurn()
      requires Sized() && onsetMs <= FRAME_MS * |frames|
      modifies this
      ensures Sized() && Now() == OpenTurn(old(Now()))
    {
      hide Normalized, WholeFrames, Bytes;
      NoFrames(c);
      speaking, turn, minimumReached, speechMs := true, turn + 1, false, onsetMs;
      utterance, utteranceBytes, preRoll, preRollBytes := preRoll, preRollBytes, [], 0;
      onsets := onsets + [Onset(|frames| - onsetMs / FRAME_MS, |frames|)];
    }

    method CheckLimits(loud: bool) returns (cut: Cut)
      requires Sized() && |utterance| <= |frames|
      modifies this
      ensures Sized() && Now() == Listen(c, old(Now()), loud) && cut == CutOf(old(Now()), Now())
    {
      cut := NoCut;
      quietMs := if loud then 0 else quietMs + FRAME_MS;
      var utteranceMs := MsOf(c, utteranceBytes);
      MsFromBytes(c, utterance);
      if (!c.clientInputEnd && quietMs as real >= c.silenceMs) ||
         (utteranceMs >= c.maxUtteranceMs - Least(400.0, c.maxUtteranceMs / 5.0) && quietMs >= 80) ||
         utteranceMs >= c.maxUtteranceMs
      {
        cut := TakeTurn(false);
      }
    }

    method AwaitOnset(frame: Frame)
      requires Sized() && |frame.audio| == FrameBytes(c)
      modifies this
      ensures Sized() && Now() == Wait(c, old(Now()), frame)
    {
      frames := frames + [frame];
      RetainPreRoll(frame);
      onsetMs := if frame.loud then onsetMs + FRAME_MS else 0;
    }

    method ExtendTurn(frame: Frame)
      requires Sized() && |frame.audio| == FrameBytes(c)
      modifies this
      ensures Sized() && Now() == Extend(old(Now()), frame)
    {
      BytesAppend(utterance, frame);
      frames := frames + [frame];
      utterance := utterance + [frame];
      utteranceBytes := utteranceBytes + |frame.audio|;
      if frame.loud { speechMs := speechMs + FRAME_MS; }
    }

    method AnalyzeFrame(frame: Frame) returns (begun: bool, cut: Cut)
      requires Sized() && Inv(c, Now()) && |frame.audio| == FrameBytes(c)
      modifies this
      ensures Sized() && Now() == Hear(c, old(Now()), frame)
      ensures begun == (turn > old(turn)) && cut == CutOf(old(Now()), Now())
    {
      begun, cut := false, NoCut;
      WaitCounts(c, Now(), frame);
      if !speaking {
        AwaitOnset(frame);
        if onsetMs as real < c.onsetMs { return; }
        StartTurn();
        begun := true;
      } else {
        ExtendTurn(frame);
      }
      cut := CheckLimits(frame.loud);
    }

    method FinishInput() returns (cut: Cut)
      requires Sized() && |utterance| <= |frames|
      modifies this
      ensures Sized() && Now() == Boundary(c, old(Now())) && cut == CutOf(old(Now()), Now())
    {
      cut := NoCut;
      if speaking { cut := TakeTurn(true); } else { ResetTurn(); }
      preRoll, preRollBytes := [], 0;
    }

    method DropInput()
      requires Sized()
      modifies this
      ensures Sized() && Now() == Drop(old(Now()))
    {
      ResetTurn();
      preRoll, preRollBytes := [], 0;
    }
  }

  lemma RetainedIs(c: Settings, preRoll: seq<Frame>, frame: Frame, roll: seq<Frame>)
    requires Normalized(c) && RollBytes(c) > 0
    requires var all := preRoll + [frame];
             && 1 <= |roll| <= |all| && roll == all[|all| - |roll|..]
             && (|roll| <= RollFrames(c) || |roll| == 1) && (|roll| == |all| || |roll| >= RollFrames(c))
    ensures roll == Retain(c, preRoll, frame)
  {
  }

  lemma WaitCounts(c: Settings, s: State, frame: Frame)
    requires Normalized(c) && Inv(c, s)
    ensures |s.utterance| <= |s.frames|
    ensures !s.speaking ==>
              |Retain(c, s.preRoll, frame)| <= |s.frames| + 1 && s.onsetMs + FRAME_MS <= FRAME_MS * (|s.frames| + 1)
  {
    RetainsNewest(c, s.preRoll, s.frames, frame);
  }

  lemma NoFrames(c: Settings)
    ensures WholeFrames(c, []) && Bytes([]) == 0
  {
  }

  lemma {:induction false} BytesAppend(frames: seq<Frame>, frame: Frame)
    ensures Bytes(frames + [frame]) == Bytes(frames) + |frame.audio|
    decreases |frames|
  {
    if frames == [] {
      assert [frame][1..] == [];
    } else {
      assert (frames + [frame])[1..] == frames[1..] + [frame];
      BytesAppend(frames[1..], frame);
    }
  }

  lemma {:induction false} BytesOfWhole(c: Settings, frames: seq<Frame>)
    requires WholeFrames(c, frames)
    ensures Bytes(frames) == if c.enhanced then 640 * |frames| else 160 * |frames|
    decreases |frames|
  {
    if frames != [] { BytesOfWhole(c, frames[1..]); }
  }

  lemma Fits(c: Settings, frames: seq<Frame>)
    requires WholeFrames(c, frames) && RollBytes(c) >= 0
    ensures Bytes(frames) <= RollBytes(c) <==> |frames| <= RollFrames(c)
  {
    BytesOfWhole(c, frames);
  }

  lemma MsFromBytes(c: Settings, frames: seq<Frame>)
    requires WholeFrames(c, frames)
    ensures MsOf(c, Bytes(frames)) == Ms(frames)
  {
    BytesOfWhole(c, frames);
  }
}
