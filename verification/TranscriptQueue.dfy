/** The serial transcription queue of a realtime session and the notifications it owes for each
    utterance (`enqueue`, `settleProcessing`, `confirmProcessing`, `cancelPending`, `fail` and `close`
    in packages/openclaw-local-media/src/realtime-transcription-provider.ts).

    Every handler, and every section of a job between two awaits, is one atomic step.  Utterances
    are numbered in the order of their onsets.
 */
module TranscriptQueue {
  import opened Wrappers

  datatype ProcessingState = Started | SpeechConfirmed | Transcribed | Empty | Failed | Cancelled

  datatype Note = Note(id: nat, state: ProcessingState)

  /** `sent` counts the jobs made for the turn, `heard` collects their results. */
  datatype Turn = Turn(
    text: string, open: bool, discarded: bool, confirmed: bool, published: bool, sent: nat, heard: seq<string>)

  datatype Phase = Waiting | Running | Threw | Done

  /** A link of the `serial` chain; `endpoint` when it owns the utterance's outcome. */
  datatype Job = Job(turn: nat, audio: bool, endpoint: bool, phase: Phase)

  datatype Transcript = Transcript(id: nat, text: string)

  datatype State = State(
    maxQueued: nat, closed: bool, speaking: bool, turns: seq<Turn>, jobs: seq<Job>, queued: nat,
    pending: seq<nat>, trace: seq<Note>, transcripts: seq<Transcript>)

  function Start(maxQueued: nat): State { State(maxQueued, false, false, [], [], 0, [], [], []) }

  datatype Outcome = Heard(text: string, tooLong: bool) | Busy | Error

  // ----- notifications

  function Remove(ids: seq<nat>, id: nat): seq<nat> {
    if ids == [] then []
    else if ids[0] == id then ids[1..]
    else [ids[0]] + Remove(ids[1..], id)
  }

  function Settle(s: State, id: nat, state: ProcessingState): State {
    if id in s.pending then s.(pending := Remove(s.pending, id), trace := s.trace + [Note(id, state)]) else s
  }

  predicate MayConfirm(s: State, t: nat) {
    && t < |s.turns|
    && !s.closed && !s.turns[t].discarded && !s.speaking && t == |s.turns| - 1
    && t in s.pending && s.turns[t].confirmed && !s.turns[t].published
  }

  function Confirm(s: State, t: nat): State {
    if MayConfirm(s, t)
    then s.(turns := s.turns[t := s.turns[t].(published := true)], trace := s.trace + [Note(t, SpeechConfirmed)])
    else s
  }

  function Cancellations(ids: seq<nat>): seq<Note> {
    if ids == [] then [] else [Note(ids[0], Cancelled)] + Cancellations(ids[1..])
  }

  function Discard(turn: Turn): Turn { turn.(text := "", open := false, discarded := true) }

  function CancelOpen(turns: seq<Turn>): (r: seq<Turn>)
    ensures |r| == |turns|
  {
    seq(|turns|, i requires 0 <= i < |turns| => if turns[i].open then Discard(turns[i]) else turns[i])
  }

  function Close(s: State): State {
    s.(closed := true, speaking := false, pending := [], trace := s.trace + Cancellations(s.pending),
       turns := CancelOpen(s.turns))
  }

  function Fail(s: State): State { if s.closed then s else Close(s) }

  // ----- the handlers

  function DiscardTurn(s: State, t: nat): State
    requires t < |s.turns|
  {
    s.(turns := s.turns[t := Discard(s.turns[t])])
  }

  function Enqueue(s: State, t: nat, audio: bool, endpoint: bool): State
    requires t < |s.turns|
  {
    if s.turns[t].discarded then s
    else if audio && s.queued >= s.maxQueued then Fail(s)
    else
      var u := s.(queued := s.queued + (if audio then 1 else 0),
                  jobs := s.jobs + [Job(t, audio, endpoint, Waiting)],
                  turns := s.turns[t := s.turns[t].(sent := s.turns[t].sent + 1)]);
      if endpoint then Confirm(u.(pending := u.pending + [t], trace := u.trace + [Note(t, Started)]), t) else u
  }

  /** An observed end of the turn: transcribe what is left, or reject the turn. */
  function FinishTurn(s: State, audio: bool, transcribe: bool): State
    requires s.turns != []
  {
    var u := s.(speaking := false);
    if transcribe then Enqueue(u, |s.turns| - 1, audio, true) else DiscardTurn(u, |s.turns| - 1)
  }

  function Head(s: State, phase: Phase): State
    requires s.jobs != []
  {
    s.(jobs := [s.jobs[0].(phase := phase)] + s.jobs[1..])
  }

  function Combine(text: string, more: string): string {
    if more == "" then text else if text == "" then more else text + " " + more
  }

  /** A result for a turn that is still wanted. */
  function Accept(s: State, t: nat, endpoint: bool, text: string): State
    requires t < |s.turns|
  {
    var turn := s.turns[t].(text := Combine(s.turns[t].text, text), heard := s.turns[t].heard + [text]);
    if !endpoint then s.(turns := s.turns[t := turn])
    else
      var u := s.(turns := s.turns[t := turn.(text := "", open := false)],
                  transcripts := if turn.text == "" then s.transcripts
                                 else s.transcripts + [Transcript(t, turn.text)]);
      Settle(u, t, if turn.text == "" then Empty else Transcribed)
  }

  /** The job's `catch`: the new state, and whether it throws on to the end of the chain. */
  function Catch(s: State, t: nat, busy: bool): (State, bool)
    requires t < |s.turns|
  {
    if s.turns[t].discarded && !s.closed then (Settle(s, t, Cancelled), false)
    else
      var u := Settle(s, t, if s.closed then Cancelled else Failed);
      if busy then (DiscardTurn(u, t), false) else (u, true)
  }

  function SettleJob(s: State, outcome: Outcome): State
    requires s.jobs != [] && s.jobs[0].turn < |s.turns|
  {
    var job := s.jobs[0];
    if outcome.Heard? && (s.closed || s.turns[job.turn].discarded) then Head(s, Done)
    else if outcome.Heard? && !(outcome.text != "" && outcome.tooLong)
    then Accept(Head(s, Done), job.turn, job.endpoint, outcome.text)
    else
      var (u, throws) := Catch(s, job.turn, outcome.Busy?);
      Head(u, if throws then Threw else Done)
  }

  datatype Step =
    | Onset
    | Batch                                   // a size-capped part of the turn that is going on
    | Endpoint(audio: bool, transcribe: bool)
    | Gap
    | BeginJob
    | ConfirmSpeech
    | EndJob(outcome: Outcome)
    | CatchJob
    | FinallyJob
    | ProcessorError
    | CloseSession

  predicate Enabled(s: State, step: Step) {
    match step
    case Onset => !s.closed && !s.speaking
    case Batch => !s.closed && s.speaking && s.turns != []
    case Endpoint(_, _) => !s.closed && s.speaking && s.turns != []
    case Gap => !s.closed
    case BeginJob => s.jobs != [] && s.jobs[0].phase == Waiting && s.jobs[0].turn < |s.turns|
    case ConfirmSpeech => s.jobs != [] && s.jobs[0].phase == Running && s.jobs[0].turn < |s.turns|
    case EndJob(outcome) =>
      s.jobs != [] && s.jobs[0].phase == Running && s.jobs[0].turn < |s.turns| &&
      (s.jobs[0].audio || outcome == Heard("", false))
    case CatchJob => s.jobs != [] && s.jobs[0].phase == Threw
    case FinallyJob => s.jobs != [] && s.jobs[0].phase == Done
    case _ => true
  }

  function Apply(s: State, step: Step): State
    requires Enabled(s, step)
  {
    match step
    case Onset => s.(speaking := true, turns := s.turns + [Turn("", true, false, false, false, 0, [])])
    case Batch => Enqueue(s, |s.turns| - 1, true, false)
    case Endpoint(audio, transcribe) => FinishTurn(s, audio, transcribe)
    case Gap => if s.speaking && s.turns != [] then DiscardTurn(s.(speaking := false), |s.turns| - 1) else s
    case BeginJob => Head(s, if s.closed || s.turns[s.jobs[0].turn].discarded then Done else Running)
    case ConfirmSpeech =>
      var t := s.jobs[0].turn;
      Confirm(s.(turns := s.turns[t := s.turns[t].(confirmed := true)]), t)
    case EndJob(outcome) => SettleJob(s, outcome)
    case CatchJob => Head(Fail(s), Done)
    case FinallyJob =>
      s.(jobs := s.jobs[1..], queued := if s.jobs[0].audio && s.queued > 0 then s.queued - 1 else s.queued)
    case ProcessorError => Fail(s)
    case CloseSession => Close(s)
  }

  predicate Legal(s: State, steps: seq<Step>)
    decreases |steps|
  {
    steps == [] || (Enabled(s, steps[0]) && Legal(Apply(s, steps[0]), steps[1..]))
  }

  function Run(s: State, steps: seq<Step>): State
    requires Legal(s, steps)
    decreases |steps|
  {
    if steps == [] then s else Run(Apply(s, steps[0]), steps[1..])
  }

  // ----- the protocol each utterance is owed

  datatype Progress = Fresh | Begun | Confirmed | Settled(state: ProcessingState) | Broken

  function Next(p: Progress, state: ProcessingState): Progress {
    match state
    case Started => if p == Fresh then Begun else Broken
    case SpeechConfirmed => if p == Begun then Confirmed else Broken
    case _ => if p == Begun || p == Confirmed then Settled(state) else Broken
  }

  /** How far the notifications about `id` have come; `Broken` once they leave the protocol: started,
      at most one confirmation, one outcome. */
  function ProgressOf(trace: seq<Note>, id: nat): Progress {
    if trace == [] then Fresh
    else
      var before := ProgressOf(trace[..|trace| - 1], id);
      var last := trace[|trace| - 1];
      if last.id == id then Next(before, last.state) else before
  }

  lemma ProgressAppend(trace: seq<Note>, note: Note, id: nat)
    ensures ProgressOf(trace + [note], id) ==
            if note.id == id then Next(ProgressOf(trace, id), note.state) else ProgressOf(trace, id)
  {
    assert (trace + [note])[..|trace|] == trace;
  }

  predicate Distinct(ids: seq<nat>) { forall i, j :: 0 <= i < j < |ids| ==> ids[i] != ids[j] }

  predicate Unfinished(p: Progress) { p == Begun || p == Confirmed }

  /** The pending utterances are exactly those whose outcome is still owed. */
  ghost predicate Reported(s: State) {
    && Distinct(s.pending)
    && (forall id :: id in s.pending ==> id < |s.turns|)
    && (forall id :: ProgressOf(s.trace, id) != Broken)
    && (forall id :: id in s.pending <==> Unfinished(ProgressOf(s.trace, id)))
    && (forall id: nat :: id >= |s.turns| || (s.speaking && id == |s.turns| - 1) ==> ProgressOf(s.trace, id) == Fresh)
    && (forall id :: 0 <= id < |s.turns| && s.turns[id].published ==>
          ProgressOf(s.trace, id) != Fresh && ProgressOf(s.trace, id) != Begun)
    && (forall id :: 0 <= id < |s.turns| && ProgressOf(s.trace, id) == Confirmed ==> s.turns[id].published)
  }

  lemma {:induction false} RemoveFrom(ids: seq<nat>, id: nat)
    requires Distinct(ids)
    ensures Distinct(Remove(ids, id))
    ensures forall x :: x in Remove(ids, id) <==> x in ids && x != id
  {
    if ids != [] {
      RemoveFrom(ids[1..], id);
      assert ids == [ids[0]] + ids[1..];
      assert ids[0] !in ids[1..];
    }
  }

  lemma SettleReports(s: State, id: nat, state: ProcessingState)
    requires Reported(s) && state !in {Started, SpeechConfirmed}
    ensures Reported(Settle(s, id, state)) && id !in Settle(s, id, state).pending
  {
    if id in s.pending {
      RemoveFrom(s.pending, id);
      forall x ensures ProgressOf(Settle(s, id, state).trace, x) ==
                       if x == id then Settled(state) else ProgressOf(s.trace, x)
      {
        ProgressAppend(s.trace, Note(id, state), x);
      }
    }
  }

  lemma ConfirmReports(s: State, t: nat)
    requires Reported(s)
    ensures Reported(Confirm(s, t)) && Confirm(s, t).pending == s.pending
  {
    if MayConfirm(s, t) {
      assert ProgressOf(s.trace, t) == Begun;
      forall x ensures ProgressOf(Confirm(s, t).trace, x) ==
                       if x == t then Confirmed else ProgressOf(s.trace, x)
      {
        ProgressAppend(s.trace, Note(t, SpeechConfirmed), x);
      }
    }
  }

  lemma {:induction false} CancellationsSettle(trace: seq<Note>, ids: seq<nat>, x: nat)
    requires Distinct(ids) && forall id :: id in ids ==> Unfinished(ProgressOf(trace, id))
    ensures ProgressOf(trace + Cancellations(ids), x) ==
            if x in ids then Settled(Cancelled) else ProgressOf(trace, x)
    decreases |ids|
  {
    if ids == [] {
      assert trace + [] == trace;
    } else {
      var note, rest := Note(ids[0], Cancelled), ids[1..];
      assert ids == [ids[0]] + rest && ids[0] !in rest;
      forall id | id in rest ensures Unfinished(ProgressOf(trace + [note], id)) {
        ProgressAppend(trace, note, id);
      }
      ProgressAppend(trace, note, x);
      CancellationsSettle(trace + [note], rest, x);
      assert trace + Cancellations(ids) == (trace + [note]) + Cancellations(rest);
    }
  }

  lemma CloseReports(s: State)
    requires Reported(s)
    ensures Reported(Close(s))
  {
    forall x ensures ProgressOf(Close(s).trace, x) ==
                     if x in s.pending then Settled(Cancelled) else ProgressOf(s.trace, x)
    {
      CancellationsSettle(s.trace, s.pending, x);
    }
  }

  /** Changing a turn without touching its flags or the trace. */
  lemma TurnChangeReports(s: State, t: State)
    requires Reported(s) && t.trace == s.trace && t.pending == s.pending && |t.turns| == |s.turns|
    requires t.speaking ==> s.speaking
    requires forall i :: 0 <= i < |s.turns| ==> t.turns[i].published == s.turns[i].published
    ensures Reported(t)
  {
  }

  lemma StartReports(s: State, t: nat)
    requires Reported(s) && !s.speaking && t < |s.turns| && ProgressOf(s.trace, t) == Fresh
    ensures Reported(s.(pending := s.pending + [t], trace := s.trace + [Note(t, Started)]))
  {
    var u := s.(pending := s.pending + [t], trace := s.trace + [Note(t, Started)]);
    forall x ensures ProgressOf(u.trace, x) == if x == t then Begun else ProgressOf(s.trace, x) {
      ProgressAppend(s.trace, Note(t, Started), x);
    }
    assert t !in s.pending;
  }

  lemma EnqueueReports(s: State, t: nat, audio: bool, endpoint: bool)
    requires Reported(s) && t < |s.turns|
    requires endpoint ==> !s.speaking && ProgressOf(s.trace, t) == Fresh
    ensures Reported(Enqueue(s, t, audio, endpoint))
  {
    hide ProgressOf, Cancellations, CancelOpen;
    if s.turns[t].discarded {
    } else if audio && s.queued >= s.maxQueued {
      CloseReports(s);
    } else {
      var u := s.(queued := s.queued + (if audio then 1 else 0),
                  jobs := s.jobs + [Job(t, audio, endpoint, Waiting)],
                  turns := s.turns[t := s.turns[t].(sent := s.turns[t].sent + 1)]);
      TurnChangeReports(s, u);
      if endpoint {
        StartReports(u, t);
        ConfirmReports(u.(pending := u.pending + [t], trace := u.trace + [Note(t, Started)]), t);
      }
    }
  }

  lemma AcceptReports(s: State, t: nat, endpoint: bool, text: string)
    requires Reported(s) && t < |s.turns|
    ensures Reported(Accept(s, t, endpoint, text))
    ensures endpoint ==> t !in Accept(s, t, endpoint, text).pending
  {
    var turn := s.turns[t].(text := Combine(s.turns[t].text, text), heard := s.turns[t].heard + [text]);
    TurnChangeReports(s, s.(turns := s.turns[t := turn]));
    if endpoint {
      var u := s.(turns := s.turns[t := turn.(text := "", open := false)],
                  transcripts := if turn.text == "" then s.transcripts
                                 else s.transcripts + [Transcript(t, turn.text)]);
      TurnChangeReports(s, u);
      SettleReports(u, t, if turn.text == "" then Empty else Transcribed);
    }
  }

  lemma CatchReports(s: State, t: nat, busy: bool)
    requires Reported(s) && t < |s.turns|
    ensures Reported(Catch(s, t, busy).0) && t !in Catch(s, t, busy).0.pending
  {
    SettleReports(s, t, Cancelled);
    var u := Settle(s, t, if s.closed then Cancelled else Failed);
    SettleReports(s, t, if s.closed then Cancelled else Failed);
    TurnChangeReports(u, DiscardTurn(u, t));
  }

  lemma StepReports(s: State, step: Step)
    requires Reported(s) && Enabled(s, step)
    ensures Reported(Apply(s, step))
  {
    match step
    case Onset =>
    case Batch => EnqueueReports(s, |s.turns| - 1, true, false);
    case Endpoint(audio, transcribe) =>
      var u := s.(speaking := false);
      TurnChangeReports(s, u);
      EnqueueReports(u, |s.turns| - 1, audio, true);
      TurnChangeReports(u, DiscardTurn(u, |s.turns| - 1));
    case ConfirmSpeech =>
      var t := s.jobs[0].turn;
      var u := s.(turns := s.turns[t := s.turns[t].(confirmed := true)]);
      TurnChangeReports(s, u);
      ConfirmReports(u, t);
    case EndJob(outcome) => EndJobReports(s, outcome);
    case CatchJob => CloseReports(s);
    case ProcessorError => CloseReports(s);
    case CloseSession => CloseReports(s);
    case _ =>
  }

  lemma EndJobReports(s: State, outcome: Outcome)
    requires Reported(s) && s.jobs != [] && s.jobs[0].turn < |s.turns|
    ensures Reported(SettleJob(s, outcome))
  {
    var job := s.jobs[0];
    TurnChangeReports(s, Head(s, Done));
    AcceptReports(Head(s, Done), job.turn, job.endpoint, if outcome.Heard? then outcome.text else "");
    CatchReports(s, job.turn, outcome.Busy?);
  }

  // ----- the chain of jobs

  predicate Live(job: Job) { job.phase == Waiting || job.phase == Running }

  function AudioJobs(jobs: seq<Job>): nat {
    if jobs == [] then 0 else (if jobs[0].audio then 1 else 0) + AudioJobs(jobs[1..])
  }

  function LiveJobs(jobs: seq<Job>, t: nat): nat {
    if jobs == [] then 0
    else (if Live(jobs[0]) && jobs[0].turn == t then 1 else 0) + LiveJobs(jobs[1..], t)
  }

  lemma {:induction false} CountsAppend(jobs: seq<Job>, job: Job)
    ensures AudioJobs(jobs + [job]) == AudioJobs(jobs) + if job.audio then 1 else 0
    ensures forall t :: LiveJobs(jobs + [job], t) == LiveJobs(jobs, t) + if Live(job) && job.turn == t then 1 else 0
  {
    if jobs == [] {
      assert jobs + [job] == [job] && [job][1..] == [];
    } else {
      assert (jobs + [job])[1..] == jobs[1..] + [job];
      CountsAppend(jobs[1..], job);
    }
  }

  /** Jobs are in turn order, a turn's endpoint job is its last, and only the first has begun. */
  ghost predicate Linked(s: State) {
    && (forall i :: 0 <= i < |s.jobs| ==>
          s.jobs[i].turn < |s.turns| && (i > 0 ==> s.jobs[i].phase == Waiting) &&
          (s.jobs[i].audio || s.jobs[i].endpoint))
    && (forall i, j :: 0 <= i < j < |s.jobs| ==>
          s.jobs[i].turn <= s.jobs[j].turn && (s.jobs[i].endpoint ==> s.jobs[i].turn < s.jobs[j].turn))
    && (s.speaking ==>
          s.turns != [] && forall i :: 0 <= i < |s.jobs| && s.jobs[i].endpoint ==> s.jobs[i].turn < |s.turns| - 1)
    && s.queued == AudioJobs(s.jobs) <= s.maxQueued
  }

  /** Nothing but the jobs, the number of turns and the queue matters to `Linked`. */
  lemma SameChain(s: State, t: State)
    requires Linked(s) && t.jobs == s.jobs && |t.turns| == |s.turns| && t.queued == s.queued
    requires t.maxQueued == s.maxQueued && (t.speaking ==> s.speaking)
    ensures Linked(t)
  {
  }

  lemma HeadLinks(s: State, phase: Phase)
    requires Linked(s) && s.jobs != []
    ensures Linked(Head(s, phase))
  {
    var t := Head(s, phase);
    assert t.jobs[1..] == s.jobs[1..];
    assert forall i :: 0 < i < |s.jobs| ==> t.jobs[i] == s.jobs[i];
  }

  lemma EnqueueLinks(s: State, t: nat, audio: bool, endpoint: bool)
    requires Linked(s) && t == |s.turns| - 1 && (audio || endpoint)
    requires s.speaking ==> !endpoint
    requires forall i :: 0 <= i < |s.jobs| && s.jobs[i].endpoint ==> s.jobs[i].turn < t
    ensures Linked(Enqueue(s, t, audio, endpoint))
  {
    if s.turns[t].discarded {
    } else if audio && s.queued >= s.maxQueued {
      SameChain(s, Close(s));
    } else {
      var u := s.(queued := s.queued + (if audio then 1 else 0), jobs := s.jobs + [Job(t, audio, endpoint, Waiting)]);
      CountsAppend(s.jobs, Job(t, audio, endpoint, Waiting));
      assert Linked(u);
      SameChain(u, Enqueue(s, t, audio, endpoint));
    }
  }

  lemma AcceptLinks(s: State, t: nat, endpoint: bool, text: string)
    requires Linked(s) && t < |s.turns|
    ensures Linked(Accept(s, t, endpoint, text))
  {
    SameChain(s, Accept(s, t, endpoint, text));
  }

  lemma FinallyLinks(s: State)
    requires Linked(s) && Enabled(s, FinallyJob)
    ensures Linked(Apply(s, FinallyJob))
  {
  }

  // ----- what jobs are still owed

  /** Turns are wanted until they are complete or discarded; every live job belongs to a turn that
      is one or the other, and every pending utterance to a wanted turn with a live endpoint job. */
  ghost predicate Wanted(s: State)
    requires Linked(s) && Reported(s)
  {
    && (forall t :: 0 <= t < |s.turns| ==> !(s.turns[t].open && s.turns[t].discarded))
    && (forall i :: 0 <= i < |s.jobs| && Live(s.jobs[i]) ==>
          s.turns[s.jobs[i].turn].open || s.turns[s.jobs[i].turn].discarded)
    && (s.speaking ==> s.turns[|s.turns| - 1].open || s.turns[|s.turns| - 1].discarded)
    && (s.closed ==> s.pending == [] && !s.speaking && forall t :: 0 <= t < |s.turns| ==> !s.turns[t].open)
    && (forall id :: id in s.pending ==> s.turns[id].open && exists i :: EndpointJobAt(s.jobs, id, i))
  }

  predicate EndpointJobAt(jobs: seq<Job>, id: nat, i: int) {
    0 <= i < |jobs| && jobs[i].turn == id && jobs[i].endpoint && Live(jobs[i])
  }

  ghost predicate SameFlags(s: State, t: State) {
    && |t.turns| == |s.turns| && t.closed == s.closed && (t.speaking ==> s.speaking)
    && forall i :: 0 <= i < |s.turns| ==>
         t.turns[i].open == s.turns[i].open && t.turns[i].discarded == s.turns[i].discarded
  }

  ghost predicate Sound(s: State) { Linked(s) && Reported(s) && Wanted(s) }

  lemma FlagsDecideWanted(s: State, t: State)
    requires Sound(s) && Linked(t) && Reported(t) && SameFlags(s, t) && t.jobs == s.jobs
    requires forall id :: id in t.pending ==> id in s.pending
    ensures Wanted(t)
  {
    if t.pending != [] { assert t.pending[0] in t.pending; }
  }

  lemma CloseWanted(s: State)
    requires Sound(s)
    ensures Sound(Close(s))
  {
    CloseReports(s);
    SameChain(s, Close(s));
  }

  /** A turn that is not pending can be given up. */
  lemma DiscardWanted(s: State, t: nat)
    requires Sound(s) && t < |s.turns| && t !in s.pending
    ensures Sound(DiscardTurn(s, t))
  {
    TurnChangeReports(s, DiscardTurn(s, t));
    SameChain(s, DiscardTurn(s, t));
  }

  lemma AppendShape(s: State, t: nat, audio: bool, endpoint: bool)
    requires t < |s.turns| && !s.turns[t].discarded && !(audio && s.queued >= s.maxQueued)
    ensures var u := Enqueue(s, t, audio, endpoint);
            && u.jobs == s.jobs + [Job(t, audio, endpoint, Waiting)]
            && u.pending == (if endpoint then s.pending + [t] else s.pending)
            && SameFlags(s, u)
  {
  }

  lemma AppendWanted(s: State, u: State, job: Job)
    requires Sound(s) && !s.closed && Linked(u) && Reported(u) && SameFlags(s, u)
    requires u.jobs == s.jobs + [job] && job.turn < |s.turns| && job.phase == Waiting && s.turns[job.turn].open
    requires u.pending == if job.endpoint then s.pending + [job.turn] else s.pending
    ensures Wanted(u)
  {
    forall id | id in u.pending
      ensures s.turns[id].open && exists i :: EndpointJobAt(u.jobs, id, i)
    {
      if id in s.pending {
        var i :| EndpointJobAt(s.jobs, id, i);
        assert EndpointJobAt(u.jobs, id, i);
      } else {
        assert EndpointJobAt(u.jobs, id, |s.jobs|);
      }
    }
  }

  lemma EnqueueWanted(s: State, t: nat, audio: bool, endpoint: bool)
    requires Sound(s) && t == |s.turns| - 1 && !s.closed && (audio || endpoint)
    requires s.turns[t].open || s.turns[t].discarded
    requires endpoint ==> !s.speaking && ProgressOf(s.trace, t) == Fresh
    requires forall i :: 0 <= i < |s.jobs| && s.jobs[i].endpoint ==> s.jobs[i].turn < t
    ensures Sound(Enqueue(s, t, audio, endpoint))
  {
    EnqueueReports(s, t, audio, endpoint);
    EnqueueLinks(s, t, audio, endpoint);
    if s.turns[t].discarded {
    } else if audio && s.queued >= s.maxQueued {
      CloseWanted(s);
    } else {
      AppendShape(s, t, audio, endpoint);
      AppendWanted(s, Enqueue(s, t, audio, endpoint), Job(t, audio, endpoint, Waiting));
    }
  }

  /** The first job moves on; only a job that nobody waits for may stop living. */
  lemma HeadWanted(s: State, phase: Phase)
    requires Sound(s) && s.jobs != []
    requires Live(s.jobs[0].(phase := phase)) ==> Live(s.jobs[0])
    requires !Live(s.jobs[0].(phase := phase)) && s.jobs[0].endpoint ==> s.jobs[0].turn !in s.pending
    ensures Sound(Head(s, phase))
  {
    var t := Head(s, phase);
    HeadLinks(s, phase);
    TurnChangeReports(s, t);
    forall id | id in t.pending
      ensures exists i :: EndpointJobAt(t.jobs, id, i)
    {
      var i :| EndpointJobAt(s.jobs, id, i);
      assert EndpointJobAt(t.jobs, id, i);
    }
  }

  lemma SettleWanted(s: State, id: nat, state: ProcessingState)
    requires Sound(s) && state !in {Started, SpeechConfirmed}
    ensures Sound(Settle(s, id, state)) && id !in Settle(s, id, state).pending
  {
    SettleReports(s, id, state);
    SameChain(s, Settle(s, id, state));
    RemoveFrom(s.pending, id);
    FlagsDecideWanted(s, Settle(s, id, state));
  }

  /** No job of the turn comes after its endpoint job. */
  lemma EndpointIsLast(s: State)
    requires Linked(s) && s.jobs != [] && s.jobs[0].endpoint
    ensures forall i :: 0 < i < |s.jobs| ==> s.jobs[i].turn != s.jobs[0].turn
  {
  }

  lemma AcceptWanted(s: State, text: string)
    requires Sound(s) && s.jobs != [] && Live(s.jobs[0]) && !s.closed && s.turns[s.jobs[0].turn].open
    ensures Sound(Accept(Head(s, Done), s.jobs[0].turn, s.jobs[0].endpoint, text))
  {
    var t, endpoint, u := s.jobs[0].turn, s.jobs[0].endpoint, Head(s, Done);
    var v := Accept(u, t, endpoint, text);
    HeadLinks(s, Done);
    TurnChangeReports(s, u);
    AcceptLinks(u, t, endpoint, text);
    AcceptReports(u, t, endpoint, text);
    if endpoint { EndpointIsLast(s); }
    AcceptKeepsWanted(s, v, text);
  }

  /** The first job ends, and with it perhaps its turn. */
  ghost predicate EndsFirstJob(s: State, v: State, endpoint: bool)
    requires s.jobs != [] && s.jobs[0].turn < |s.turns|
  {
    var t := s.jobs[0].turn;
    && |v.jobs| == |s.jobs| && v.jobs[1..] == s.jobs[1..] && !Live(v.jobs[0])
    && v.jobs[0].turn == t
    && v.closed == s.closed && v.speaking == s.speaking && |v.turns| == |s.turns|
    && (forall i :: 0 <= i < |s.turns| && i != t ==> v.turns[i] == s.turns[i])
    && !v.turns[t].discarded && v.turns[t].open == !endpoint
    && (forall id :: id in v.pending <==> id in s.pending && !(endpoint && id == t))
  }

  lemma AcceptEndsFirstJob(s: State, text: string)
    requires Sound(s) && s.jobs != [] && s.turns[s.jobs[0].turn].open
    ensures EndsFirstJob(s, Accept(Head(s, Done), s.jobs[0].turn, s.jobs[0].endpoint, text), s.jobs[0].endpoint)
  {
    RemoveFrom(s.pending, s.jobs[0].turn);
  }

  lemma AcceptKeepsWanted(s: State, v: State, text: string)
    requires Sound(s) && s.jobs != [] && Live(s.jobs[0]) && !s.closed && s.turns[s.jobs[0].turn].open
    requires Linked(v) && Reported(v)
    requires v == Accept(Head(s, Done), s.jobs[0].turn, s.jobs[0].endpoint, text)
    requires s.jobs[0].endpoint ==> forall i :: 0 < i < |s.jobs| ==> s.jobs[i].turn != s.jobs[0].turn
    ensures Wanted(v)
  {
    AcceptEndsFirstJob(s, text);
    EndingKeepsWanted(s, v);
  }

  lemma EndingKeepsWanted(s: State, v: State)
    requires Sound(s) && s.jobs != [] && !s.closed && EndsFirstJob(s, v, s.jobs[0].endpoint)
    requires Linked(v) && Reported(v)
    requires s.jobs[0].endpoint ==> forall i :: 0 < i < |s.jobs| ==> s.jobs[i].turn != s.jobs[0].turn
    ensures Wanted(v)
  {
    assert forall i :: 0 < i < |s.jobs| ==> v.jobs[i] == v.jobs[1..][i - 1] && s.jobs[i] == s.jobs[1..][i - 1];
    forall id | id in v.pending
      ensures exists i :: EndpointJobAt(v.jobs, id, i)
    {
      var i :| EndpointJobAt(s.jobs, id, i);
      assert EndpointJobAt(v.jobs, id, i);
    }
  }

  lemma CatchWanted(s: State, busy: bool)
    requires Sound(s) && s.jobs != []
    ensures Sound(Catch(s, s.jobs[0].turn, busy).0)
    ensures s.jobs[0].turn !in Catch(s, s.jobs[0].turn, busy).0.pending
  {
    var t := s.jobs[0].turn;
    SettleWanted(s, t, Cancelled);
    SettleWanted(s, t, if s.closed then Cancelled else Failed);
    DiscardWanted(Settle(s, t, if s.closed then Cancelled else Failed), t);
  }

  lemma EndJobWanted(s: State, outcome: Outcome)
    requires Sound(s) && s.jobs != [] && s.jobs[0].phase == Running
    ensures Sound(SettleJob(s, outcome))
  {
    var t := s.jobs[0].turn;
    if outcome.Heard? && (s.closed || s.turns[t].discarded) {
      HeadWanted(s, Done);
    } else if outcome.Heard? && !(outcome.text != "" && outcome.tooLong) {
      AcceptWanted(s, outcome.text);
    } else {
      var (u, throws) := Catch(s, t, outcome.Busy?);
      CatchWanted(s, outcome.Busy?);
      HeadWanted(u, if throws then Threw else Done);
    }
  }

  lemma FinallyWanted(s: State)
    requires Sound(s) && Enabled(s, FinallyJob)
    ensures Sound(Apply(s, FinallyJob))
  {
    FinallyLinks(s);
    StepReports(s, FinallyJob);
    var t := Apply(s, FinallyJob);
    forall id | id in t.pending
      ensures exists i :: EndpointJobAt(t.jobs, id, i)
    {
      var i :| EndpointJobAt(s.jobs, id, i);
      assert EndpointJobAt(t.jobs, id, i - 1);
    }
  }

  lemma FallSilent(s: State)
    requires Sound(s)
    ensures Sound(s.(speaking := false))
  {
    var u := s.(speaking := false);
    TurnChangeReports(s, u);
    SameChain(s, u);
    FlagsDecideWanted(s, u);
  }

  lemma FinishTurnWanted(s: State, audio: bool, transcribe: bool)
    requires Sound(s) && Enabled(s, Endpoint(audio, transcribe))
    ensures Sound(FinishTurn(s, audio, transcribe))
  {
    FallSilent(s);
    var t := |s.turns| - 1;
    assert ProgressOf(s.trace, t) == Fresh;
    if transcribe {
      EnqueueWanted(s.(speaking := false), t, audio, true);
    } else {
      DiscardWanted(s.(speaking := false), t);
    }
  }

  lemma GapWanted(s: State)
    requires Sound(s) && !s.closed
    ensures Sound(Apply(s, Gap))
  {
    if s.speaking {
      assert |s.turns| - 1 !in s.pending;
      FallSilent(s);
      DiscardWanted(s.(speaking := false), |s.turns| - 1);
    }
  }

  lemma OnsetWanted(s: State)
    requires Sound(s) && Enabled(s, Onset)
    ensures Sound(Apply(s, Onset))
  {
    StepReports(s, Onset);
    var t := Apply(s, Onset);
    assert forall i :: 0 <= i < |s.turns| ==> t.turns[i] == s.turns[i];
    assert Linked(t);
  }

  lemma ConfirmWanted(s: State)
    requires Sound(s) && Enabled(s, ConfirmSpeech)
    ensures Sound(Apply(s, ConfirmSpeech))
  {
    StepReports(s, ConfirmSpeech);
    SameChain(s, Apply(s, ConfirmSpeech));
    FlagsDecideWanted(s, Apply(s, ConfirmSpeech));
  }

  lemma CatchJobWanted(s: State)
    requires Sound(s) && Enabled(s, CatchJob)
    ensures Sound(Apply(s, CatchJob))
  {
    CloseWanted(s);
    HeadWanted(Fail(s), Done);
  }

  lemma BatchWanted(s: State)
    requires Sound(s) && Enabled(s, Batch)
    ensures Sound(Apply(s, Batch))
  {
    EnqueueWanted(s, |s.turns| - 1, true, false);
  }

  lemma BeginWanted(s: State)
    requires Sound(s) && Enabled(s, BeginJob)
    ensures Sound(Apply(s, BeginJob))
  {
    HeadWanted(s, if s.closed || s.turns[s.jobs[0].turn].discarded then Done else Running);
  }

  lemma StepIsSound(s: State, step: Step)
    requires Sound(s) && Enabled(s, step)
    ensures Sound(Apply(s, step))
  {
    hide Sound;
    match step
    case Onset => OnsetWanted(s);
    case Batch => BatchWanted(s);
    case Endpoint(audio, transcribe) => FinishTurnWanted(s, audio, transcribe);
    case Gap => GapWanted(s);
    case BeginJob => BeginWanted(s);
    case ConfirmSpeech => ConfirmWanted(s);
    case EndJob(outcome) => EndJobWanted(s, outcome);
    case CatchJob => CatchJobWanted(s);
    case FinallyJob => FinallyWanted(s);
    case ProcessorError => CloseWanted(s);
    case CloseSession => CloseWanted(s);
  }

  // ----- what a turn has been told

  function Joined(heard: seq<string>): string {
    if heard == [] then "" else Combine(Joined(heard[..|heard| - 1]), heard[|heard| - 1])
  }

  function NonEmpty(parts: seq<string>): seq<string> {
    if parts == [] then [] else (if parts[0] == "" then [] else [parts[0]]) + NonEmpty(parts[1..])
  }

  /** The parts in order with one blank between them. */
  function Spaced(parts: seq<string>): string {
    if parts == [] then "" else if |parts| == 1 then parts[0] else parts[0] + " " + Spaced(parts[1..])
  }

  lemma {:induction false} NonEmptyLast(parts: seq<string>, last: string)
    ensures NonEmpty(parts + [last]) == NonEmpty(parts) + if last == "" then [] else [last]
    decreases |parts|
  {
    if parts == [] {
      assert [last][1..] == [];
    } else {
      assert (parts + [last])[1..] == parts[1..] + [last];
      NonEmptyLast(parts[1..], last);
    }
  }

  lemma {:induction false} SpacedLast(parts: seq<string>, last: string)
    requires parts != []
    ensures Spaced(parts + [last]) == Spaced(parts) + " " + last
    decreases |parts|
  {
    if |parts| == 1 {
      assert (parts + [last])[1..] == [last];
    } else {
      assert (parts + [last])[1..] == parts[1..] + [last];
      SpacedLast(parts[1..], last);
      assert (parts[0] + " ") + (Spaced(parts[1..]) + " " + last) == (parts[0] + " " + Spaced(parts[1..])) + " " + last;
    }
  }

  lemma SpacedIsEmpty(parts: seq<string>)
    requires forall k :: 0 <= k < |parts| ==> parts[k] != ""
    ensures Spaced(parts) == "" <==> parts == []
  {
  }

  /** Joined results are the non-empty ones in order, with a blank between them. */
  lemma {:induction false} JoinedIsSpaced(heard: seq<string>)
    ensures Joined(heard) == Spaced(NonEmpty(heard))
    ensures forall k :: 0 <= k < |NonEmpty(heard)| ==> NonEmpty(heard)[k] != ""
    decreases |heard|
  {
    if heard != [] {
      var before, last := heard[..|heard| - 1], heard[|heard| - 1];
      JoinedIsSpaced(before);
      assert heard == before + [last];
      NonEmptyLast(before, last);
      SpacedIsEmpty(NonEmpty(before));
      if last != "" && NonEmpty(before) != [] { SpacedLast(NonEmpty(before), last); }
      assert NonEmpty(before) + [] == NonEmpty(before) && [] + [last] == [last];
    }
  }

  /** Jobs of the turn whose results are still to come, or were lost to an error. */
  function Owed(s: State, t: nat): nat {
    LiveJobs(s.jobs, t) + if s.jobs != [] && s.jobs[0].phase == Threw && s.jobs[0].turn == t then 1 else 0
  }

  ghost predicate Told(turn: Turn, owed: nat) {
    turn.text == Joined(turn.heard) && turn.sent == |turn.heard| + owed
  }

  /** The text of a wanted turn joins the results of all its jobs so far, in order. */
  ghost predicate Accumulated(s: State) {
    forall t :: 0 <= t < |s.turns| && s.turns[t].open ==> Told(s.turns[t], Owed(s, t))
  }

  lemma {:induction false} NoJobs(jobs: seq<Job>, t: nat)
    requires forall i :: 0 <= i < |jobs| ==> jobs[i].turn != t || !Live(jobs[i])
    ensures LiveJobs(jobs, t) == 0
  {
    if jobs != [] { NoJobs(jobs[1..], t); }
  }

  lemma OnsetAccumulates(s: State)
    requires Sound(s) && Accumulated(s) && Enabled(s, Onset)
    ensures Accumulated(Apply(s, Onset))
  {
    NoJobs(s.jobs, |s.turns|);
  }

  lemma EnqueueAccumulates(s: State, t: nat, audio: bool, endpoint: bool)
    requires Accumulated(s) && t < |s.turns|
    ensures Accumulated(Enqueue(s, t, audio, endpoint))
  {
    CountsAppend(s.jobs, Job(t, audio, endpoint, Waiting));
    var u := Enqueue(s, t, audio, endpoint);
    if !s.turns[t].discarded && !(audio && s.queued >= s.maxQueued) {
      assert u.jobs == s.jobs + [Job(t, audio, endpoint, Waiting)];
      assert forall x :: Owed(u, x) == Owed(s, x) + if x == t then 1 else 0;
    }
  }

  lemma HeadOwes(s: State, phase: Phase, t: nat)
    requires s.jobs != []
    ensures Owed(Head(s, phase), t) ==
            LiveJobs(s.jobs[1..], t) + if phase != Done && s.jobs[0].turn == t then 1 else 0
    ensures Owed(s, t) == LiveJobs(s.jobs[1..], t) + if s.jobs[0].phase != Done && s.jobs[0].turn == t then 1 else 0
  {
    assert Head(s, phase).jobs[1..] == s.jobs[1..];
  }

  lemma HeadAccumulates(s: State, phase: Phase)
    requires Sound(s) && Accumulated(s) && s.jobs != []
    requires phase == Done ==> s.jobs[0].phase == Done || !s.turns[s.jobs[0].turn].open
    requires s.jobs[0].phase == Done ==> phase == Done
    ensures Accumulated(Head(s, phase))
  {
    forall t | 0 <= t < |s.turns| && s.turns[t].open
      ensures Owed(Head(s, phase), t) == Owed(s, t)
    {
      HeadOwes(s, phase, t);
    }
  }

  lemma AcceptAccumulates(s: State, text: string)
    requires Sound(s) && Accumulated(s) && s.jobs != [] && s.jobs[0].phase == Running
    requires s.turns[s.jobs[0].turn].open
    ensures Accumulated(Accept(Head(s, Done), s.jobs[0].turn, s.jobs[0].endpoint, text))
  {
    var t := s.jobs[0].turn;
    var v := Accept(Head(s, Done), t, s.jobs[0].endpoint, text);
    var heard := s.turns[t].heard + [text];
    assert heard[..|heard| - 1] == s.turns[t].heard;
    assert Told(s.turns[t], Owed(s, t));
    forall x | 0 <= x < |s.turns| && v.turns[x].open
      ensures Told(v.turns[x], Owed(v, x))
    {
      HeadOwes(s, Done, x);
      assert v.jobs == Head(s, Done).jobs;
      assert Owed(v, x) == Owed(Head(s, Done), x);
      if x != t { assert Told(s.turns[x], Owed(s, x)); }
    }
  }

  lemma SameJobsAccumulate(s: State, u: State)
    requires Accumulated(s) && u.jobs == s.jobs && |u.turns| == |s.turns|
    requires forall x :: 0 <= x < |s.turns| && u.turns[x].open ==>
               s.turns[x].open && u.turns[x].text == s.turns[x].text &&
               u.turns[x].heard == s.turns[x].heard && u.turns[x].sent == s.turns[x].sent
    ensures Accumulated(u)
  {
    assert forall x :: Owed(u, x) == Owed(s, x);
  }

  lemma CatchAccumulates(s: State, busy: bool)
    requires Sound(s) && Accumulated(s) && s.jobs != [] && s.jobs[0].phase == Running
    ensures var (u, throws) := Catch(s, s.jobs[0].turn, busy);
            Accumulated(Head(u, if throws then Threw else Done))
  {
    var (u, throws) := Catch(s, s.jobs[0].turn, busy);
    CatchWanted(s, busy);
    CatchSettles(s, busy);
    HeadAccumulates(u, if throws then Threw else Done);
  }

  lemma CatchSettles(s: State, busy: bool)
    requires Accumulated(s) && s.jobs != [] && s.jobs[0].turn < |s.turns|
    ensures var (u, throws) := Catch(s, s.jobs[0].turn, busy);
            && Accumulated(u) && u.jobs == s.jobs
            && (!throws ==> !u.turns[s.jobs[0].turn].open || s.turns[s.jobs[0].turn].discarded)
  {
    SameJobsAccumulate(s, Catch(s, s.jobs[0].turn, busy).0);
  }

  lemma EndJobAccumulates(s: State, outcome: Outcome)
    requires Sound(s) && Accumulated(s) && s.jobs != [] && s.jobs[0].phase == Running
    ensures Accumulated(SettleJob(s, outcome))
  {
    var t := s.jobs[0].turn;
    if outcome.Heard? && (s.closed || s.turns[t].discarded) {
      HeadAccumulates(s, Done);
    } else if outcome.Heard? && !(outcome.text != "" && outcome.tooLong) {
      AcceptAccumulates(s, outcome.text);
    } else {
      CatchAccumulates(s, outcome.Busy?);
    }
  }

  lemma StepAccumulates(s: State, step: Step)
    requires Sound(s) && Accumulated(s) && Enabled(s, step)
    ensures Accumulated(Apply(s, step))
  {
    hide Told, ProgressOf;
    match step
    case Onset => OnsetAccumulates(s);
    case Batch => EnqueueAccumulates(s, |s.turns| - 1, true, false);
    case Endpoint(audio, transcribe) => EndpointAccumulates(s, audio, transcribe);
    case Gap => SameJobsAccumulate(s, Apply(s, step));
    case BeginJob => HeadAccumulates(s, if s.closed || s.turns[s.jobs[0].turn].discarded then Done else Running);
    case ConfirmSpeech => SameJobsAccumulate(s, Apply(s, step));
    case EndJob(outcome) => EndJobAccumulates(s, outcome);
    case CatchJob => CatchJobAccumulates(s);
    case FinallyJob => FinallyAccumulates(s);
    case ProcessorError =>
    case CloseSession =>
  }

  lemma EndpointAccumulates(s: State, audio: bool, transcribe: bool)
    requires Accumulated(s) && s.turns != []
    ensures Accumulated(FinishTurn(s, audio, transcribe))
  {
    var u := s.(speaking := false);
    SameJobsAccumulate(s, u);
    if transcribe {
      EnqueueAccumulates(u, |s.turns| - 1, audio, true);
    } else {
      SameJobsAccumulate(u, DiscardTurn(u, |s.turns| - 1));
    }
  }

  lemma CatchJobAccumulates(s: State)
    requires Sound(s) && Enabled(s, CatchJob)
    ensures Accumulated(Apply(s, CatchJob))
  {
    CloseWanted(s);
  }

  lemma FinallyAccumulates(s: State)
    requires Linked(s) && Accumulated(s) && Enabled(s, FinallyJob)
    ensures Accumulated(Apply(s, FinallyJob))
  {
    forall x ensures Owed(Apply(s, FinallyJob), x) == Owed(s, x) { HeadOwes(s, Done, x); }
  }

  // ----- transcripts

  ghost predicate Complete(turn: Turn, text: string) {
    !turn.open && !turn.discarded && text == Joined(turn.heard) && turn.sent == |turn.heard|
  }

  /** Transcripts are in utterance order, ahead of every job still to run, and each joins the results
      of all the jobs of its turn. */
  ghost predicate Delivered(s: State) {
    && (forall k, l :: 0 <= k < l < |s.transcripts| ==> s.transcripts[k].id < s.transcripts[l].id)
    && (forall k :: 0 <= k < |s.transcripts| ==>
          s.transcripts[k].id < |s.turns| && Complete(s.turns[s.transcripts[k].id], s.transcripts[k].text))
    && (forall k, i :: 0 <= k < |s.transcripts| && 0 <= i < |s.jobs| && Live(s.jobs[i]) ==>
          s.transcripts[k].id < s.jobs[i].turn)
    && (s.speaking ==> forall k :: 0 <= k < |s.transcripts| ==> s.transcripts[k].id < |s.turns| - 1)
  }

  /** Turns that are complete stay as they are, and no job starts to live behind a transcript. */
  lemma SameDelivered(s: State, u: State)
    requires Delivered(s) && u.transcripts == s.transcripts && |u.turns| >= |s.turns|
    requires forall x :: 0 <= x < |s.turns| && !s.turns[x].open && !s.turns[x].discarded ==>
               u.turns[x].(confirmed := false, published := false) ==
               s.turns[x].(confirmed := false, published := false)
    requires forall i :: 0 <= i < |u.jobs| && Live(u.jobs[i]) ==>
               forall k :: 0 <= k < |s.transcripts| ==> s.transcripts[k].id < u.jobs[i].turn
    requires u.speaking ==> s.speaking || |u.turns| > |s.turns|
    requires u.speaking && s.speaking ==> |u.turns| == |s.turns|
    ensures Delivered(u)
  {
  }

  lemma EnqueueDelivers(s: State, t: nat, audio: bool, endpoint: bool)
    requires Sound(s) && Delivered(s) && t == |s.turns| - 1
    requires s.turns[t].open || s.turns[t].discarded
    requires forall k :: 0 <= k < |s.transcripts| ==> s.transcripts[k].id < t
    ensures Delivered(Enqueue(s, t, audio, endpoint))
  {
    if !s.turns[t].discarded && !(audio && s.queued >= s.maxQueued) { AppendShape(s, t, audio, endpoint); }
    SameDelivered(s, Enqueue(s, t, audio, endpoint));
  }

  lemma HeadDelivers(s: State, phase: Phase)
    requires Delivered(s) && s.jobs != [] && (Live(s.jobs[0].(phase := phase)) ==> Live(s.jobs[0]))
    ensures Delivered(Head(s, phase))
  {
    assert forall i :: 0 < i < |s.jobs| ==> Head(s, phase).jobs[i] == s.jobs[i];
    SameDelivered(s, Head(s, phase));
  }

  lemma AcceptCompletes(s: State, text: string)
    requires Sound(s) && Accumulated(s) && s.jobs != [] && s.jobs[0].phase == Running
    requires s.turns[s.jobs[0].turn].open && s.jobs[0].endpoint
    ensures var t := s.jobs[0].turn;
            var v := Accept(Head(s, Done), t, true, text);
            && Complete(v.turns[t], Combine(s.turns[t].text, text))
            && v.jobs == Head(s, Done).jobs && v.speaking == s.speaking && |v.turns| == |s.turns|
            && (forall x :: 0 <= x < |s.turns| && x != t ==> v.turns[x] == s.turns[x])
            && (v.transcripts == s.transcripts ||
                v.transcripts == s.transcripts + [Transcript(t, Combine(s.turns[t].text, text))])
  {
    var t := s.jobs[0].turn;
    EndpointIsLast(s);
    HeadOwes(s, Running, t);
    NoJobs(s.jobs[1..], t);
    assert Told(s.turns[t], Owed(s, t)) && Owed(s, t) == 1;
    var heard := s.turns[t].heard + [text];
    assert heard[..|heard| - 1] == s.turns[t].heard;
  }

  /** The transcript of turn `t` may follow once all jobs still to run belong to later turns. */
  lemma DeliverNext(s: State, v: State, t: nat, text: string)
    requires Delivered(s) && t < |s.turns| == |v.turns| && s.turns[t].open && Complete(v.turns[t], text)
    requires forall x :: 0 <= x < |s.turns| && x != t ==> v.turns[x] == s.turns[x]
    requires v.transcripts == s.transcripts || v.transcripts == s.transcripts + [Transcript(t, text)]
    requires v.jobs == s.jobs && v.speaking == s.speaking
    requires forall i :: 0 <= i < |s.jobs| && Live(s.jobs[i]) ==> t < s.jobs[i].turn
    requires s.speaking ==> t < |s.turns| - 1
    requires forall k :: 0 <= k < |s.transcripts| ==> s.transcripts[k].id < t
    ensures Delivered(v)
  {
  }

  lemma AcceptDelivers(s: State, text: string)
    requires Sound(s) && Accumulated(s) && Delivered(s) && s.jobs != [] && s.jobs[0].phase == Running
    requires s.turns[s.jobs[0].turn].open
    ensures Delivered(Accept(Head(s, Done), s.jobs[0].turn, s.jobs[0].endpoint, text))
  {
    var t, u := s.jobs[0].turn, Head(s, Done);
    HeadDelivers(s, Done);
    if s.jobs[0].endpoint {
      AcceptCompletes(s, text);
      HeadLinks(s, Done);
      EndpointIsFirst(s);
      DeliverNext(u, Accept(u, t, true, text), t, Combine(s.turns[t].text, text));
    } else {
      SameDelivered(u, Accept(u, t, false, text));
    }
  }

  /** Everything still to run belongs to later turns than the first job, if that is an endpoint job. */
  lemma EndpointIsFirst(s: State)
    requires Linked(s) && Delivered(s) && s.jobs != [] && s.jobs[0].endpoint && s.jobs[0].phase == Running
    ensures var t := s.jobs[0].turn;
            && (forall i :: 0 <= i < |s.jobs| && Live(Head(s, Done).jobs[i]) ==> t < Head(s, Done).jobs[i].turn)
            && (s.speaking ==> t < |s.turns| - 1)
            && (forall k :: 0 <= k < |s.transcripts| ==> s.transcripts[k].id < t)
  {
    assert forall i :: 0 < i < |s.jobs| ==> Head(s, Done).jobs[i] == s.jobs[i];
    assert Live(s.jobs[0]);
  }

  lemma CatchDelivers(s: State, busy: bool)
    requires Sound(s) && Delivered(s) && s.jobs != [] && s.jobs[0].phase == Running
    ensures var (u, throws) := Catch(s, s.jobs[0].turn, busy);
            Delivered(Head(u, if throws then Threw else Done))
  {
    var t := s.jobs[0].turn;
    var (u, throws) := Catch(s, t, busy);
    assert s.turns[t].open || s.turns[t].discarded;
    SameDelivered(s, u);
    HeadDelivers(u, if throws then Threw else Done);
  }

  lemma {:induction false} StepDelivers(s: State, step: Step)
    requires Sound(s) && Accumulated(s) && Delivered(s) && Enabled(s, step)
    ensures Delivered(Apply(s, step))
  {
    match step
    case Onset => OnsetDelivers(s);
    case Batch => EnqueueDelivers(s, |s.turns| - 1, true, false);
    case Endpoint(audio, transcribe) => EndpointDelivers(s, audio, transcribe);
    case Gap => GapDelivers(s);
    case BeginJob => HeadDelivers(s, if s.closed || s.turns[s.jobs[0].turn].discarded then Done else Running);
    case ConfirmSpeech => ConfirmDelivers(s);
    case EndJob(outcome) => EndJobDelivers(s, outcome);
    case CatchJob =>
      CloseDelivers(s);
      HeadDelivers(Fail(s), Done);
    case FinallyJob => FinallyDelivers(s);
    case ProcessorError => CloseDelivers(s);
    case CloseSession => CloseDelivers(s);
  }

  lemma OnsetDelivers(s: State)
    requires Delivered(s) && Enabled(s, Onset) && Linked(s)
    ensures Delivered(Apply(s, Onset))
  {
    SameDelivered(s, Apply(s, Onset));
  }

  lemma GapDelivers(s: State)
    requires Sound(s) && Delivered(s) && Enabled(s, Gap)
    ensures Delivered(Apply(s, Gap))
  {
    SameDelivered(s, Apply(s, Gap));
  }

  lemma ConfirmDelivers(s: State)
    requires Delivered(s) && Enabled(s, ConfirmSpeech)
    ensures Delivered(Apply(s, ConfirmSpeech))
  {
    SameDelivered(s, Apply(s, ConfirmSpeech));
  }

  lemma FinallyDelivers(s: State)
    requires Delivered(s) && Enabled(s, FinallyJob)
    ensures Delivered(Apply(s, FinallyJob))
  {
    SameDelivered(s, Apply(s, FinallyJob));
  }

  lemma CloseDelivers(s: State)
    requires Delivered(s)
    ensures Delivered(Close(s))
  {
    SameDelivered(s, Close(s));
  }

  lemma {:induction false} EndJobDelivers(s: State, outcome: Outcome)
    requires Sound(s) && Accumulated(s) && Delivered(s) && s.jobs != [] && s.jobs[0].phase == Running
    ensures Delivered(SettleJob(s, outcome))
  {
    if outcome.Heard? && (s.closed || s.turns[s.jobs[0].turn].discarded) {
      HeadDelivers(s, Done);
    } else if outcome.Heard? && !(outcome.text != "" && outcome.tooLong) {
      AcceptDelivers(s, outcome.text);
    } else {
      CatchDelivers(s, outcome.Busy?);
    }
  }

  lemma EndpointDelivers(s: State, audio: bool, transcribe: bool)
    requires Sound(s) && Delivered(s) && Enabled(s, Endpoint(audio, transcribe))
    ensures Delivered(FinishTurn(s, audio, transcribe))
  {
    var u := s.(speaking := false);
    FallSilent(s);
    SameDelivered(s, u);
    if transcribe {
      EnqueueDelivers(u, |s.turns| - 1, audio, true);
    } else {
      SameDelivered(u, DiscardTurn(u, |s.turns| - 1));
    }
  }

  // ----- a live endpoint job owns the outcome of its utterance

  /** An open utterance is pending while its endpoint job is live, unless the error of one of its
      jobs is about to close the session. */
  ghost predicate Owned(s: State)
    requires Linked(s)
  {
    forall i :: 0 <= i < |s.jobs| && s.jobs[i].endpoint && Live(s.jobs[i]) && s.turns[s.jobs[i].turn].open &&
                !(s.jobs[0].phase == Threw && s.jobs[0].turn == s.jobs[i].turn) ==>
      s.jobs[i].turn in s.pending
  }

  lemma SameOwned(s: State, u: State)
    requires Linked(s) && Linked(u) && Owned(s) && u.jobs == s.jobs
    requires forall i :: 0 <= i < |s.turns| && i < |u.turns| && u.turns[i].open ==>
               s.turns[i].open && (i in s.pending ==> i in u.pending)
    ensures Owned(u)
  {
  }

  lemma EnqueueOwned(s: State, t: nat, audio: bool, endpoint: bool)
    requires Linked(s) && Owned(s) && t < |s.turns| && Linked(Enqueue(s, t, audio, endpoint))
    ensures Owned(Enqueue(s, t, audio, endpoint))
  {
    if s.turns[t].discarded {
    } else if audio && s.queued >= s.maxQueued {
      CloseOwned(s);
    } else {
      AppendShape(s, t, audio, endpoint);
      AppendOwned(s, Enqueue(s, t, audio, endpoint), Job(t, audio, endpoint, Waiting));
    }
  }

  lemma AppendOwned(s: State, u: State, job: Job)
    requires Linked(s) && Owned(s) && Linked(u) && u.jobs == s.jobs + [job] && SameFlags(s, u)
    requires u.pending == if job.endpoint then s.pending + [job.turn] else s.pending
    ensures Owned(u)
  {
  }

  lemma CloseOwned(s: State)
    requires Linked(s)
    ensures Linked(Close(s)) && Owned(Close(s))
  {
    SameChain(s, Close(s));
  }

  /** The first job moves on without leaving an error behind. */
  lemma HeadOwned(s: State, phase: Phase)
    requires Linked(s) && Owned(s) && s.jobs != [] && Linked(Head(s, phase)) && phase != Threw
    requires s.jobs[0].phase != Threw || forall i :: 0 <= i < |s.turns| ==> !s.turns[i].open
    requires Live(s.jobs[0].(phase := phase)) ==> Live(s.jobs[0])
    ensures Owned(Head(s, phase))
  {
    assert forall i :: 0 < i < |s.jobs| ==> Head(s, phase).jobs[i] == s.jobs[i];
  }

  lemma AcceptOwned(s: State, text: string)
    requires Sound(s) && Owned(s) && s.jobs != [] && s.jobs[0].phase == Running && !s.closed
    requires s.turns[s.jobs[0].turn].open
    ensures var v := Accept(Head(s, Done), s.jobs[0].turn, s.jobs[0].endpoint, text);
            Linked(v) && Owned(v)
  {
    var v := Accept(Head(s, Done), s.jobs[0].turn, s.jobs[0].endpoint, text);
    AcceptWanted(s, text);
    AcceptEndsFirstJob(s, text);
    assert forall i :: 0 < i < |s.jobs| ==> v.jobs[i] == v.jobs[1..][i - 1] && s.jobs[i] == s.jobs[1..][i - 1];
  }

  lemma CatchOwned(s: State, busy: bool)
    requires Sound(s) && Owned(s) && s.jobs != [] && s.jobs[0].phase == Running
    ensures var (u, throws) := Catch(s, s.jobs[0].turn, busy);
            var v := Head(u, if throws then Threw else Done);
            Linked(v) && Owned(v)
  {
    var (u, throws) := Catch(s, s.jobs[0].turn, busy);
    CatchWanted(s, busy);
    RemoveFrom(s.pending, s.jobs[0].turn);
    FailedJobOwned(s, u, if throws then Threw else Done);
  }

  /** The first job fails; its turn is given up now or the session is about to close. */
  lemma FailedJobOwned(s: State, u: State, phase: Phase)
    requires Linked(s) && Owned(s) && s.jobs != [] && s.jobs[0].phase == Running
    requires Linked(u) && u.jobs == s.jobs && |u.turns| == |s.turns|
    requires forall id :: id in s.pending && id != s.jobs[0].turn ==> id in u.pending
    requires forall x :: 0 <= x < |s.turns| && u.turns[x].open ==> s.turns[x].open
    requires phase == Threw || (phase == Done && !u.turns[s.jobs[0].turn].open)
    ensures Linked(Head(u, phase)) && Owned(Head(u, phase))
  {
    HeadLinks(u, phase);
    assert forall i :: 0 < i < |s.jobs| ==> Head(u, phase).jobs[i] == s.jobs[i];
  }

  lemma EndJobOwned(s: State, outcome: Outcome)
    requires Sound(s) && Owned(s) && s.jobs != [] && s.jobs[0].phase == Running
    ensures Linked(SettleJob(s, outcome)) && Owned(SettleJob(s, outcome))
  {
    HeadLinks(s, Done);
    if outcome.Heard? && (s.closed || s.turns[s.jobs[0].turn].discarded) {
      HeadOwned(s, Done);
    } else if outcome.Heard? && !(outcome.text != "" && outcome.tooLong) {
      AcceptOwned(s, outcome.text);
    } else {
      CatchOwned(s, outcome.Busy?);
    }
  }

  lemma EndpointOwned(s: State, audio: bool, transcribe: bool)
    requires Linked(s) && Owned(s) && s.turns != [] && Linked(FinishTurn(s, audio, transcribe))
    ensures Owned(FinishTurn(s, audio, transcribe))
  {
    var u, t := s.(speaking := false), |s.turns| - 1;
    SameChain(s, u);
    SameOwned(s, u);
    if transcribe {
      assert FinishTurn(s, audio, transcribe) == Enqueue(u, t, audio, true);
      EnqueueOwned(u, t, audio, true);
    } else {
      assert FinishTurn(s, audio, transcribe) == DiscardTurn(u, t);
      SameOwned(u, DiscardTurn(u, t));
    }
  }

  lemma CatchJobOwned(s: State)
    requires Sound(s) && Owned(s) && Enabled(s, CatchJob)
    ensures Linked(Apply(s, CatchJob)) && Owned(Apply(s, CatchJob))
  {
    CloseOwned(s);
    HeadLinks(Fail(s), Done);
    HeadOwned(Fail(s), Done);
  }

  lemma GapOwned(s: State)
    requires Linked(s) && Owned(s) && Enabled(s, Gap)
    ensures Linked(Apply(s, Gap)) && Owned(Apply(s, Gap))
  {
    SameChain(s, Apply(s, Gap));
    SameOwned(s, Apply(s, Gap));
  }

  lemma OnsetOwned(s: State)
    requires Linked(s) && Owned(s) && Enabled(s, Onset) && Linked(Apply(s, Onset))
    ensures Owned(Apply(s, Onset))
  {
    assert forall i :: 0 <= i < |s.turns| ==> Apply(s, Onset).turns[i] == s.turns[i];
    SameOwned(s, Apply(s, Onset));
  }

  lemma ConfirmOwned(s: State)
    requires Linked(s) && Owned(s) && Enabled(s, ConfirmSpeech)
    ensures Linked(Apply(s, ConfirmSpeech)) && Owned(Apply(s, ConfirmSpeech))
  {
    SameChain(s, Apply(s, ConfirmSpeech));
    SameOwned(s, Apply(s, ConfirmSpeech));
  }

  lemma BatchOwned(s: State)
    requires Linked(s) && Owned(s) && Enabled(s, Batch) && Linked(Apply(s, Batch))
    ensures Owned(Apply(s, Batch))
  {
    hide Linked, Owned, Enqueue;
    EnqueueOwned(s, |s.turns| - 1, true, false);
  }

  lemma BeginOwned(s: State)
    requires Linked(s) && Owned(s) && Enabled(s, BeginJob) && Linked(Apply(s, BeginJob))
    ensures Owned(Apply(s, BeginJob))
  {
    HeadOwned(s, if s.closed || s.turns[s.jobs[0].turn].discarded then Done else Running);
  }

  lemma {:induction false} StepOwned(s: State, step: Step)
    requires Sound(s) && Owned(s) && Enabled(s, step) && Linked(Apply(s, step))
    ensures Owned(Apply(s, step))
  {
    match step
    case Onset => OnsetOwned(s);
    case Batch => BatchOwned(s);
    case Endpoint(audio, transcribe) => EndpointOwned(s, audio, transcribe);
    case Gap => GapOwned(s);
    case BeginJob => BeginOwned(s);
    case ConfirmSpeech => ConfirmOwned(s);
    case EndJob(outcome) => EndJobOwned(s, outcome);
    case CatchJob => CatchJobOwned(s);
    case FinallyJob => FinallyOwned(s);
    case ProcessorError => CloseOwned(s);
    case CloseSession => CloseOwned(s);
  }

  lemma FinallyOwned(s: State)
    requires Linked(s) && Owned(s) && Enabled(s, FinallyJob)
    ensures Linked(Apply(s, FinallyJob)) && Owned(Apply(s, FinallyJob))
  {
    FinallyLinks(s);
  }

  // ----- `transcribed` means that a transcript was handed over

  ghost predicate HasTranscript(transcripts: seq<Transcript>, id: nat) {
    exists k :: 0 <= k < |transcripts| && transcripts[k].id == id
  }

  ghost predicate Announced(s: State) {
    forall id: nat :: ProgressOf(s.trace, id) == Settled(Transcribed) <==> HasTranscript(s.transcripts, id)
  }

  ghost predicate SameAnnounced(s: State, u: State) {
    && u.transcripts == s.transcripts
    && forall id: nat ::
         ProgressOf(u.trace, id) == Settled(Transcribed) <==> ProgressOf(s.trace, id) == Settled(Transcribed)
  }

  lemma SettleAnnounces(s: State, id: nat, state: ProcessingState)
    requires Reported(s) && state in {Empty, Failed, Cancelled}
    ensures SameAnnounced(s, Settle(s, id, state))
  {
    if id in s.pending {
      forall x: nat ensures ProgressOf(Settle(s, id, state).trace, x) ==
                            if x == id then Settled(state) else ProgressOf(s.trace, x)
      {
        ProgressAppend(s.trace, Note(id, state), x);
      }
    }
  }

  lemma ConfirmAnnounces(s: State, t: nat)
    requires Reported(s)
    ensures SameAnnounced(s, Confirm(s, t))
  {
    if MayConfirm(s, t) {
      assert ProgressOf(s.trace, t) == Begun;
      forall x: nat ensures ProgressOf(Confirm(s, t).trace, x) ==
                            if x == t then Confirmed else ProgressOf(s.trace, x)
      {
        ProgressAppend(s.trace, Note(t, SpeechConfirmed), x);
      }
    }
  }

  lemma CloseAnnounces(s: State)
    requires Reported(s)
    ensures SameAnnounced(s, Close(s))
  {
    forall x: nat ensures ProgressOf(Close(s).trace, x) ==
                          if x in s.pending then Settled(Cancelled) else ProgressOf(s.trace, x)
    {
      CancellationsSettle(s.trace, s.pending, x);
    }
  }

  lemma EnqueueAnnounces(s: State, t: nat, audio: bool, endpoint: bool)
    requires Reported(s) && t < |s.turns|
    requires endpoint ==> !s.speaking && ProgressOf(s.trace, t) == Fresh
    ensures SameAnnounced(s, Enqueue(s, t, audio, endpoint))
  {
    if s.turns[t].discarded {
    } else if audio && s.queued >= s.maxQueued {
      CloseAnnounces(s);
    } else if endpoint {
      var u := s.(queued := s.queued + (if audio then 1 else 0),
                  jobs := s.jobs + [Job(t, audio, endpoint, Waiting)],
                  turns := s.turns[t := s.turns[t].(sent := s.turns[t].sent + 1)]);
      TurnChangeReports(s, u);
      StartReports(u, t);
      var v := u.(pending := u.pending + [t], trace := u.trace + [Note(t, Started)]);
      forall x: nat ensures ProgressOf(v.trace, x) == if x == t then Begun else ProgressOf(s.trace, x) {
        ProgressAppend(s.trace, Note(t, Started), x);
      }
      ConfirmAnnounces(v, t);
    }
  }

  lemma CatchAnnounces(s: State, t: nat, busy: bool)
    requires Reported(s) && t < |s.turns|
    ensures SameAnnounced(s, Catch(s, t, busy).0)
  {
    SettleAnnounces(s, t, Cancelled);
    SettleAnnounces(s, t, if s.closed then Cancelled else Failed);
  }

  /** The one place where a transcript is handed over: its utterance is pending. */
  lemma AcceptAnnounces(s: State, t: nat, endpoint: bool, text: string)
    requires Reported(s) && Announced(s) && t < |s.turns| && (endpoint ==> t in s.pending)
    ensures Announced(Accept(s, t, endpoint, text))
  {
    var v := Accept(s, t, endpoint, text);
    if endpoint {
      var full := Combine(s.turns[t].text, text);
      if full == "" {
        var u := s.(turns := v.turns);
        TurnChangeReports(s, u);
        SettleAnnounces(u, t, Empty);
      } else {
        forall x: nat
          ensures ProgressOf(v.trace, x) == (if x == t then Settled(Transcribed) else ProgressOf(s.trace, x))
                              && (HasTranscript(v.transcripts, x) <==> x == t || HasTranscript(s.transcripts, x))
        {
          ProgressAppend(s.trace, Note(t, Transcribed), x);
          HasAppend(s.transcripts, Transcript(t, full), x);
        }
      }
    }
  }

  lemma HasAppend(transcripts: seq<Transcript>, last: Transcript, id: nat)
    ensures HasTranscript(transcripts + [last], id) <==> last.id == id || HasTranscript(transcripts, id)
  {
    var all := transcripts + [last];
    assert all[|transcripts|] == last;
    if HasTranscript(transcripts, id) {
      var k :| 0 <= k < |transcripts| && transcripts[k].id == id;
      assert all[k].id == id;
    }
  }

  lemma EndJobAnnounces(s: State, outcome: Outcome)
    requires Sound(s) && Owned(s) && Announced(s) && s.jobs != [] && s.jobs[0].phase == Running
    ensures Announced(SettleJob(s, outcome))
  {
    var job, u := s.jobs[0], Head(s, Done);
    if outcome.Heard? && (s.closed || s.turns[job.turn].discarded) {
    } else if outcome.Heard? && !(outcome.text != "" && outcome.tooLong) {
      TurnChangeReports(s, u);
      assert job.endpoint ==> job.turn in s.pending;
      AcceptAnnounces(u, job.turn, job.endpoint, outcome.text);
    } else {
      CatchAnnounces(s, job.turn, outcome.Busy?);
    }
  }

  lemma {:induction false} EndpointAnnounces(s: State, audio: bool, transcribe: bool)
    requires Reported(s) && Enabled(s, Endpoint(audio, transcribe))
    ensures SameAnnounced(s, FinishTurn(s, audio, transcribe))
  {
    var u, t := s.(speaking := false), |s.turns| - 1;
    TurnChangeReports(s, u);
    if transcribe {
      EnqueueAnnounces(u, t, audio, true);
      assert FinishTurn(s, audio, transcribe) == Enqueue(u, t, audio, true);
    }
  }

  lemma ConfirmSpeechAnnounces(s: State)
    requires Reported(s) && Enabled(s, ConfirmSpeech)
    ensures SameAnnounced(s, Apply(s, ConfirmSpeech))
  {
    var t := s.jobs[0].turn;
    var u := s.(turns := s.turns[t := s.turns[t].(confirmed := true)]);
    TurnChangeReports(s, u);
    ConfirmAnnounces(u, t);
  }

  lemma StepAnnounces(s: State, step: Step)
    requires Sound(s) && Owned(s) && Announced(s) && Enabled(s, step)
    ensures Announced(Apply(s, step))
  {
    match step
    case Onset =>
    case Batch => EnqueueAnnounces(s, |s.turns| - 1, true, false);
    case Endpoint(audio, transcribe) => EndpointAnnounces(s, audio, transcribe);
    case Gap =>
    case BeginJob =>
    case ConfirmSpeech => ConfirmSpeechAnnounces(s);
    case EndJob(outcome) => EndJobAnnounces(s, outcome);
    case CatchJob => CloseAnnounces(s);
    case FinallyJob =>
    case ProcessorError => CloseAnnounces(s);
    case CloseSession => CloseAnnounces(s);
  }

  // ----- a confirmation is published as soon as it may be

  /** Only confirmed speech is published; the newest utterance is not kept waiting for it. */
  ghost predicate Prompt(s: State) {
    && (forall i :: 0 <= i < |s.turns| && s.turns[i].published ==> s.turns[i].confirmed)
    && (s.turns != [] && !s.closed && !s.speaking && |s.turns| - 1 in s.pending && s.turns[|s.turns| - 1].confirmed ==>
          s.turns[|s.turns| - 1].published)
  }

  /** The flags stay, and nobody becomes pending. */
  lemma SamePrompt(s: State, u: State)
    requires Prompt(s) && |u.turns| == |s.turns|
    requires forall i :: 0 <= i < |s.turns| ==>
               u.turns[i].published == s.turns[i].published && u.turns[i].confirmed == s.turns[i].confirmed
    requires !u.closed && !u.speaking && u.turns != [] && |u.turns| - 1 in u.pending ==>
               !s.closed && !s.speaking && |s.turns| - 1 in s.pending
    ensures Prompt(u)
  {
  }

  /** Whatever made the newest utterance ready, `Confirm` publishes it. */
  lemma ConfirmIsPrompt(s: State, t: nat)
    requires t == |s.turns| - 1 && (t in s.pending ==> !s.turns[t].discarded)
    requires forall i :: 0 <= i < |s.turns| && s.turns[i].published ==> s.turns[i].confirmed
    ensures Prompt(Confirm(s, t))
  {
  }

  lemma EndpointIsPrompt(s: State, audio: bool, transcribe: bool)
    requires Sound(s) && Prompt(s) && Enabled(s, Endpoint(audio, transcribe))
    ensures Prompt(FinishTurn(s, audio, transcribe))
  {
    var t := |s.turns| - 1;
    assert t !in s.pending;
    if transcribe && !s.turns[t].discarded && !(audio && s.queued >= s.maxQueued) {
      var u := s.(speaking := false, queued := s.queued + (if audio then 1 else 0),
                  jobs := s.jobs + [Job(t, audio, true, Waiting)],
                  turns := s.turns[t := s.turns[t].(sent := s.turns[t].sent + 1)],
                  pending := s.pending + [t], trace := s.trace + [Note(t, Started)]);
      ConfirmIsPrompt(u, t);
      assert FinishTurn(s, audio, transcribe) == Confirm(u, t);
    } else {
      SamePrompt(s, FinishTurn(s, audio, transcribe));
    }
  }

  lemma ConfirmSpeechIsPrompt(s: State)
    requires Sound(s) && Prompt(s) && Enabled(s, ConfirmSpeech)
    ensures Prompt(Apply(s, ConfirmSpeech))
  {
    var t := s.jobs[0].turn;
    var u := s.(turns := s.turns[t := s.turns[t].(confirmed := true)]);
    if t == |s.turns| - 1 { ConfirmIsPrompt(u, t); } else { SamePromptButFor(s, u, t); }
  }

  lemma SamePromptButFor(s: State, u: State, t: nat)
    requires Prompt(s) && t < |s.turns| - 1 && u == s.(turns := s.turns[t := s.turns[t].(confirmed := true)])
    ensures Prompt(Confirm(u, t))
  {
  }

  lemma BatchIsPrompt(s: State)
    requires Prompt(s) && Enabled(s, Batch)
    ensures Prompt(Apply(s, Batch))
  {
    SamePrompt(s, Apply(s, Batch));
  }

  lemma AcceptIsPrompt(s: State, text: string)
    requires Prompt(s) && Distinct(s.pending) && s.jobs != [] && s.jobs[0].turn < |s.turns|
    ensures Prompt(Accept(Head(s, Done), s.jobs[0].turn, s.jobs[0].endpoint, text))
  {
    hide Distinct, Prompt;
    RemoveFrom(s.pending, s.jobs[0].turn);
    SamePrompt(s, Accept(Head(s, Done), s.jobs[0].turn, s.jobs[0].endpoint, text));
  }

  lemma CatchIsPrompt(s: State, busy: bool)
    requires Prompt(s) && Distinct(s.pending) && s.jobs != [] && s.jobs[0].turn < |s.turns|
    ensures var (u, throws) := Catch(s, s.jobs[0].turn, busy);
            Prompt(Head(u, if throws then Threw else Done))
  {
    hide Distinct, Prompt;
    RemoveFrom(s.pending, s.jobs[0].turn);
    var (u, throws) := Catch(s, s.jobs[0].turn, busy);
    SamePrompt(s, Head(u, if throws then Threw else Done));
  }

  lemma EndJobIsPrompt(s: State, outcome: Outcome)
    requires Prompt(s) && Distinct(s.pending) && s.jobs != [] && s.jobs[0].turn < |s.turns|
    ensures Prompt(SettleJob(s, outcome))
  {
    hide Distinct, Prompt, Accept, Catch;
    if outcome.Heard? && (s.closed || s.turns[s.jobs[0].turn].discarded) {
      SamePrompt(s, Head(s, Done));
    } else if outcome.Heard? && !(outcome.text != "" && outcome.tooLong) {
      AcceptIsPrompt(s, outcome.text);
    } else {
      CatchIsPrompt(s, outcome.Busy?);
    }
  }

  lemma StepIsPrompt(s: State, step: Step)
    requires Sound(s) && Prompt(s) && Enabled(s, step)
    ensures Prompt(Apply(s, step))
  {
    hide ProgressOf, Linked;
    match step
    case Onset =>
    case Batch => BatchIsPrompt(s);
    case Endpoint(audio, transcribe) => EndpointIsPrompt(s, audio, transcribe);
    case Gap => SamePrompt(s, Apply(s, step));
    case BeginJob => SamePrompt(s, Apply(s, step));
    case ConfirmSpeech => ConfirmSpeechIsPrompt(s);
    case EndJob(outcome) => EndJobIsPrompt(s, outcome);
    case CatchJob => SamePrompt(s, Apply(s, step));
    case FinallyJob => SamePrompt(s, Apply(s, step));
    case ProcessorError => SamePrompt(s, Apply(s, step));
    case CloseSession => SamePrompt(s, Apply(s, step));
  }

  // ----- whole runs

  ghost predicate Kept(s: State) {
    Sound(s) && Accumulated(s) && Delivered(s) && Owned(s) && Announced(s) && Prompt(s)
  }

  lemma StepKeeps(s: State, step: Step)
    requires Kept(s) && Enabled(s, step)
    ensures Kept(Apply(s, step))
  {
    StepIsSound(s, step);
    StepOwned(s, step);
    StepAccumulates(s, step);
    StepDelivers(s, step);
    StepAnnounces(s, step);
    StepIsPrompt(s, step);
  }

  lemma {:induction false} RunKeeps(s: State, steps: seq<Step>)
    requires Kept(s) && Legal(s, steps)
    ensures Kept(Run(s, steps))
    decreases |steps|
  {
    if steps != [] {
      StepKeeps(s, steps[0]);
      RunKeeps(Apply(s, steps[0]), steps[1..]);
    }
  }

  /** What the host is told about one utterance, in order. */
  function About(trace: seq<Note>, id: nat): seq<ProcessingState> {
    if trace == [] then []
    else
      var before := About(trace[..|trace| - 1], id);
      if trace[|trace| - 1].id == id then before + [trace[|trace| - 1].state] else before
  }

  predicate Terminal(state: ProcessingState) { state !in {Started, SpeechConfirmed} }

  /** Nothing, or `started`, then at most one confirmation, then at most one outcome. */
  predicate InProtocol(told: seq<ProcessingState>) {
    || told == []
    || (told[0] == Started && (
          || |told| == 1
          || (|told| == 2 && told[1] != Started)
          || (|told| == 3 && told[1] == SpeechConfirmed && Terminal(told[2]))))
  }

  predicate Ended(told: seq<ProcessingState>) { told != [] && Terminal(told[|told| - 1]) }

  lemma {:induction false} ProgressTells(trace: seq<Note>, id: nat)
    requires ProgressOf(trace, id) != Broken
    ensures InProtocol(About(trace, id))
    ensures About(trace, id) == match ProgressOf(trace, id)
                                case Fresh => []
                                case Begun => [Started]
                                case Confirmed => [Started, SpeechConfirmed]
                                case Settled(state) => About(trace, id)
                                case Broken => []
    ensures ProgressOf(trace, id).Settled? <==> Ended(About(trace, id))
    ensures ProgressOf(trace, id).Settled? ==>
              About(trace, id)[|About(trace, id)| - 1] == ProgressOf(trace, id).state
    decreases |trace|
  {
    if trace != [] { ProgressTells(trace[..|trace| - 1], id); }
  }

  /** In every run each utterance is told `started`, then at most `speech-confirmed`, then exactly one
      outcome.  Only a live endpoint job delays the outcome: it has been told by the time that job
      ended or the session closed. */
  lemma OneOutcomePerUtterance(maxQueued: nat, steps: seq<Step>, s: State, id: nat)
    requires Legal(Start(maxQueued), steps) && s == Run(Start(maxQueued), steps)
    ensures InProtocol(About(s.trace, id))
    ensures About(s.trace, id) != [] && !Ended(About(s.trace, id)) ==>
              !s.closed && exists i :: EndpointJobAt(s.jobs, id, i)
    ensures id in s.pending <==> About(s.trace, id) != [] && !Ended(About(s.trace, id))
  {
    RunKeeps(Start(maxQueued), steps);
    ProgressTells(s.trace, id);
  }

  /** In every run transcripts come in utterance order, at most one for each, exactly for the
      utterances whose outcome is `transcribed`, and each joins the results of all its jobs. */
  lemma TranscriptsInOrder(maxQueued: nat, steps: seq<Step>, s: State)
    requires Legal(Start(maxQueued), steps) && s == Run(Start(maxQueued), steps)
    ensures forall k, l :: 0 <= k < l < |s.transcripts| ==> s.transcripts[k].id < s.transcripts[l].id
    ensures forall k :: 0 <= k < |s.transcripts| ==>
              s.transcripts[k].id < |s.turns| && Complete(s.turns[s.transcripts[k].id], s.transcripts[k].text)
    ensures forall id: nat :: HasTranscript(s.transcripts, id) <==>
              Ended(About(s.trace, id)) && About(s.trace, id)[|About(s.trace, id)| - 1] == Transcribed
  {
    RunKeeps(Start(maxQueued), steps);
    forall id: nat { ProgressTells(s.trace, id); }
  }

  /** In every run a confirmation is told only of confirmed speech, and at once when the newest
      utterance is complete, still owed its outcome and its speech is confirmed. */
  lemma ConfirmationIsPrompt(maxQueued: nat, steps: seq<Step>, s: State, t: nat)
    requires Legal(Start(maxQueued), steps) && s == Run(Start(maxQueued), steps) && t < |s.turns|
    ensures ProgressOf(s.trace, t) == Confirmed ==> s.turns[t].confirmed
    ensures t == |s.turns| - 1 && !s.closed && !s.speaking && t in s.pending ==>
              (s.turns[t].confirmed <==> ProgressOf(s.trace, t) == Confirmed)
  {
    RunKeeps(Start(maxQueued), steps);
  }

  /** The queue counts the jobs that hold audio, and never more than the configured number. */
  lemma QueueIsBounded(maxQueued: nat, steps: seq<Step>, s: State)
    requires Legal(Start(maxQueued), steps) && s == Run(Start(maxQueued), steps)
    ensures s.queued == AudioJobs(s.jobs) <= maxQueued
  {
    RunKeeps(Start(maxQueued), steps);
    RunKeepsLimit(Start(maxQueued), steps);
  }

  lemma {:induction false} RunKeepsLimit(s: State, steps: seq<Step>)
    requires Legal(s, steps)
    ensures Run(s, steps).maxQueued == s.maxQueued
    decreases |steps|
  {
    if steps != [] { RunKeepsLimit(Apply(s, steps[0]), steps[1..]); }
  }

  // ----- the session's mutable state

  /** The variables of `createSession` that the handlers share; `trace` and `transcripts` record what
      the host's callbacks were given. */
  class SerialQueue {
    const maxQueued: nat
    var closed: bool
    var speaking: bool
    var turns: seq<Turn>
    var jobs: seq<Job>
    var queued: nat
    var pending: seq<nat>
    ghost var trace: seq<Note>
    ghost var transcripts: seq<Transcript>

    ghost function Now(): State
      reads this
    {
      State(maxQueued, closed, speaking, turns, jobs, queued, pending, trace, transcripts)
    }

    constructor (maxQueued: nat)
      ensures Now() == Start(maxQueued)
    {
      this.maxQueued := maxQueued;
      closed, speaking, turns, jobs, queued, pending := false, false, [], [], 0, [];
      trace, transcripts := [], [];
    }

    method SettleProcessing(id: nat, state: ProcessingState)
      modifies this
      ensures Now() == Settle(old(Now()), id, state)
    {
      if id in pending {
        pending := Remove(pending, id);
        trace := trace + [Note(id, state)];
      }
    }

    method ConfirmProcessing(t: nat)
      requires t < |turns|
      modifies this
      ensures Now() == Confirm(old(Now()), t)
    {
      if !closed && !turns[t].discarded && !speaking && t == |turns| - 1 && t in pending &&
         turns[t].confirmed && !turns[t].published
      {
        turns := turns[t := turns[t].(published := true)];
        trace := trace + [Note(t, SpeechConfirmed)];
      }
    }

    /** Every pending utterance is cancelled, in order, and every wanted turn is given up. */
    method CancelPending()
      modifies this
      ensures Now() == old(Now()).(pending := [], trace := old(trace) + Cancellations(old(pending)),
                                   turns := CancelOpen(old(turns)))
    {
      while pending != []
        invariant trace + Cancellations(pending) == old(trace) + Cancellations(old(pending))
        invariant Now() == old(Now()).(pending := pending, trace := trace)
        decreases |pending|
      {
        assert Remove(pending, pending[0]) == pending[1..];
        SettleProcessing(pending[0], Cancelled);
      }
      var i := 0;
      while i < |turns|
        invariant 0 <= i <= |turns| == |old(turns)|
        invariant forall k :: 0 <= k < i ==> turns[k] == CancelOpen(old(turns))[k]
        invariant forall k :: i <= k < |turns| ==> turns[k] == old(turns)[k]
        invariant Now() == old(Now()).(pending := pending, trace := trace, turns := turns)
        invariant pending == [] && trace == old(trace) + Cancellations(old(pending))
      {
        if turns[i].open { turns := turns[i := Discard(turns[i])]; }
        i := i + 1;
      }
      assert turns == CancelOpen(old(turns));
    }

    method CloseSession()
      modifies this
      ensures Now() == Close(old(Now()))
    {
      closed := true;
      CancelPending();
      speaking := false;
    }

    method FailSession()
      modifies this
      ensures Now() == Fail(old(Now()))
    {
      if closed { return; }
      closed := true;
      CancelPending();
      speaking := false;
    }

    method EnqueueAudio(t: nat, audio: bool, endpoint: bool)
      requires t < |turns|
      modifies this
      ensures Now() == Enqueue(old(Now()), t, audio, endpoint)
    {
      if turns[t].discarded { return; }
      if audio && queued >= maxQueued {
        FailSession();
        return;
      }
      turns := turns[t := turns[t].(sent := turns[t].sent + 1)];
      jobs := jobs + [Job(t, audio, endpoint, Waiting)];
      if audio { queued := queued + 1; }
      if endpoint {
        pending := pending + [t];
        trace := trace + [Note(t, Started)];
        ConfirmProcessing(t);
      }
    }

    method OpenTurn()
      requires !closed && !speaking
      modifies this
      ensures Now() == Apply(old(Now()), Onset)
    {
      speaking := true;
      turns := turns + [Turn("", true, false, false, false, 0, [])];
    }

    method DropTurn()
      requires !closed
      modifies this
      ensures Now() == Apply(old(Now()), Gap)
    {
      if speaking && turns != [] {
        speaking := false;
        turns := turns[|turns| - 1 := Discard(turns[|turns| - 1])];
      }
    }

    method EndTurn(audio: bool, transcribe: bool)
      requires turns != []
      modifies this
      ensures Now() == FinishTurn(old(Now()), audio, transcribe)
    {
      speaking := false;
      if transcribe {
        EnqueueAudio(|turns| - 1, audio, true);
      } else {
        turns := turns[|turns| - 1 := Discard(turns[|turns| - 1])];
      }
    }

    method AcceptResult(t: nat, endpoint: bool, text: string)
      requires t < |turns|
      modifies this
      ensures Now() == Accept(old(Now()), t, endpoint, text)
    {
      var full, heard := Combine(turns[t].text, text), turns[t].heard + [text];
      turns := turns[t := turns[t].(text := full, heard := heard)];
      if endpoint {
        if full != "" { transcripts := transcripts + [Transcript(t, full)]; }
        turns := turns[t := turns[t].(text := "", open := false)];
        assert turns == old(turns)[t := old(turns)[t].(text := "", heard := heard, open := false)];
        SettleProcessing(t, if full == "" then Empty else Transcribed);
      }
    }

    method CatchError(t: nat, busy: bool) returns (throws: bool)
      requires t < |turns|
      modifies this
      ensures (Now(), throws) == Catch(old(Now()), t, busy)
    {
      if turns[t].discarded && !closed {
        SettleProcessing(t, Cancelled);
        return false;
      }
      SettleProcessing(t, if closed then Cancelled else Failed);
      if busy { turns := turns[t := Discard(turns[t])]; }
      return !busy;
    }

    method MoveFirst(phase: Phase)
      requires jobs != []
      modifies `jobs
      ensures Now() == Head(old(Now()), phase)
    {
      jobs := [jobs[0].(phase := phase)] + jobs[1..];
    }

    /** The result of the first job's request, or the error its `catch` is given. */
    method SettleFirst(outcome: Outcome)
      requires jobs != [] && jobs[0].turn < |turns|
      modifies this
      ensures Now() == SettleJob(old(Now()), outcome)
    {
      var job := jobs[0];
      if outcome.Heard? && (closed || turns[job.turn].discarded) {
        MoveFirst(Done);
      } else if outcome.Heard? && !(outcome.text != "" && outcome.tooLong) {
        MoveFirst(Done);
        AcceptResult(job.turn, job.endpoint, outcome.text);
      } else {
        var throws := CatchError(job.turn, outcome.Busy?);
        MoveFirst(if throws then Threw else Done);
      }
    }

    /** `catch(fail)` at the end of the first job's chain. */
    method CatchFirst()
      requires jobs != []
      modifies this
      ensures Now() == Head(Fail(old(Now())), Done)
    {
      FailSession();
      MoveFirst(Done);
    }
  }
}
