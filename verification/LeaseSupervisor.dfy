/** Running a worker under a renewable lease
    (services/accelerator/src/openclaw_accelerator/runner.py).

    One turn of the loop is one element of a script: what the signal handler, the clocks and the broker
    answer in that turn.  The worker is a process that exits at some instant, or never.  Times are real
    numbers of seconds.
 */
module LeaseSupervisor {
  import opened Wrappers

  const EXIT_TEMPORARY_FAILURE := 75
  const EXIT_CONFIGURATION_ERROR := 78

  datatype Config = Config(
    ttl: real, renewInterval: real, grace: real, shutdownTimeout: real, pollInterval: real)

  predicate Valid(c: Config, brokerTimeout: real) {
    && 5.0 <= c.ttl <= 86_400.0
    && 0.0 < c.renewInterval <= c.ttl / 2.0
    && 0.0 < c.grace <= c.ttl / 2.0
    && c.renewInterval + c.grace + brokerTimeout < c.ttl
    && 0.1 <= c.shutdownTimeout <= 300.0
    && 0.02 <= c.pollInterval <= 5.0
  }

  /** The worker is gone from the instant `exit` on; nobody knows that instant beforehand. */
  datatype Worker = Worker(exit: Option<real>, code: int)

  /** What `poll` tells. */
  predicate Gone(worker: Worker, at: real) { worker.exit.Some? && worker.exit.value <= at }

  /** `Refused` stands for a broker error, `Broken` for an `OSError`, `Unexpected` for anything else raised. */
  datatype Renewal = Renewed(expires: real) | Refused | Broken | Unexpected

  /** `now` is read after the polls, `after` and the wall clock `epoch` when the renewal, if one is due,
      has returned. */
  datatype Turn = Turn(now: real, signal: Option<nat>, answer: Renewal, after: real, epoch: real)

  /** `next_renew`, `renewal_failure_started` and `expires_at_epoch`. */
  datatype Clock = Clock(nextRenew: real, failingSince: Option<real>, expires: real)

  datatype Why = Signalled(signal: nat) | LeaseLost | CallBroken | CallUnexpected

  datatype Ending = Running(clock: Clock) | Exited(code: int, at: real) | Stopping(why: Why, at: real)

  function Min(a: real, b: real): real { if a < b then a else b }

  function RetryDelay(c: Config): real { Min(1.0, c.renewInterval / 4.0) }

  function ExitCode(returnCode: int): int { if returnCode < 0 then 128 - returnCode else returnCode }

  predicate Due(clock: Clock, turn: Turn) { turn.now >= clock.nextRenew }

  /** The broker answered and the lease has more than the renew interval left. */
  predicate Succeeds(c: Config, turn: Turn) {
    turn.answer.Renewed? && turn.answer.expires - turn.epoch > c.renewInterval
  }

  function Expiry(clock: Clock, turn: Turn): real {
    if turn.answer.Renewed? then turn.answer.expires else clock.expires
  }

  /** One turn of the loop. */
  function Advance(c: Config, worker: Worker, clock: Clock, turn: Turn): Ending {
    if Gone(worker, turn.now) then Exited(ExitCode(worker.code), turn.now)
    else if turn.signal.Some? then Stopping(Signalled(turn.signal.value), turn.now)
    else if !Due(clock, turn) then Running(clock)
    else if turn.answer.Broken? then Stopping(CallBroken, turn.after)
    else if turn.answer.Unexpected? then Stopping(CallUnexpected, turn.after)
    else
      var expires := Expiry(clock, turn);
      if Succeeds(c, turn) then Running(Clock(turn.after + c.renewInterval, None, expires))
      else
        var since := if clock.failingSince.Some? then clock.failingSince.value else turn.now;
        if turn.after - since >= c.grace || turn.epoch >= expires then Stopping(LeaseLost, turn.after)
        else Running(Clock(turn.after + RetryDelay(c), Some(since), expires))
  }

  function Loop(c: Config, worker: Worker, clock: Clock, turns: seq<Turn>): Ending
    decreases |turns|
  {
    if turns == [] then Running(clock)
    else
      var next := Advance(c, worker, clock, turns[0]);
      if next.Running? then Loop(c, worker, next.clock, turns[1..]) else next
  }

  /** The clock when the worker starts at `started` on a lease that ends at `expires`. */
  function Begin(c: Config, started: real, expires: real): Clock {
    Clock(started + c.renewInterval, None, expires)
  }

  // ----- how late the worker can be stopped

  /** Each turn starts between `from` and `to`; a broker call takes at most `brokerTimeout`, the wait
      between turns at most the poll interval, and nothing else takes time. */
  predicate Timed(
    c: Config, brokerTimeout: real, worker: Worker, clock: Clock, from: real, to: real, turns: seq<Turn>)
    decreases |turns|
  {
    turns == [] ||
    var turn := turns[0];
    && from <= turn.now <= to
    && turn.now <= turn.after <= (if Due(clock, turn) then turn.now + brokerTimeout else turn.now)
    && var next := Advance(c, worker, clock, turn);
       if next.Running?
       then Timed(c, brokerTimeout, worker, next.clock, turn.after, turn.after + c.pollInterval, turns[1..])
       else turns[1..] == []
  }

  /** When the last successful renewal returned, or else `start`. */
  function LastSuccess(c: Config, worker: Worker, clock: Clock, start: real, turns: seq<Turn>): real
    decreases |turns|
  {
    if turns == [] then start
    else
      var next := Advance(c, worker, clock, turns[0]);
      if !next.Running? then start
      else LastSuccess(c, worker, next.clock,
                       if Due(clock, turns[0]) && Succeeds(c, turns[0]) then turns[0].after else start, turns[1..])
  }

  function Bound(c: Config, brokerTimeout: real): real {
    c.renewInterval + c.grace + brokerTimeout + RetryDelay(c) + 2.0 * c.pollInterval
  }

  ghost predicate OnSchedule(c: Config, clock: Clock, success: real, to: real) {
    match clock.failingSince
    case None =>
      clock.nextRenew == success + c.renewInterval && to < success + c.renewInterval + c.pollInterval
    case Some(since) =>
      && since < success + c.renewInterval + c.pollInterval
      && clock.nextRenew < since + c.grace + RetryDelay(c)
      && to < clock.nextRenew + c.pollInterval
  }

  lemma {:induction false} TurnsStayOnSchedule(
    c: Config, brokerTimeout: real, worker: Worker, clock: Clock, success: real, from: real, to: real,
    turns: seq<Turn>)
    requires c.renewInterval > 0.0 && c.grace > 0.0 && c.pollInterval > 0.0 && brokerTimeout >= 0.0
    requires OnSchedule(c, clock, success, to) && Timed(c, brokerTimeout, worker, clock, from, to, turns)
    requires turns != []
    ensures turns[|turns| - 1].after < LastSuccess(c, worker, clock, success, turns) + Bound(c, brokerTimeout)
    decreases |turns|
  {
    var turn := turns[0];
    var next := Advance(c, worker, clock, turn);
    if next.Running? && turns[1..] != [] {
      var latest := if Due(clock, turn) && Succeeds(c, turn) then turn.after else success;
      TurnsStayOnSchedule(
        c, brokerTimeout, worker, next.clock, latest, turn.after, turn.after + c.pollInterval, turns[1..]);
    } else {
      assert turns[1..] == [];
    }
  }

  /** In every run: no turn is over, and so no stop begins, later than this bound after the last
      successful renewal, or after the worker started. */
  lemma WorkerIsStoppedInTime(
    c: Config, brokerTimeout: real, worker: Worker, started: real, expires: real, turns: seq<Turn>)
    requires Valid(c, brokerTimeout) && brokerTimeout >= 0.0 && turns != []
    requires Timed(c, brokerTimeout, worker, Begin(c, started, expires), started, started, turns)
    ensures turns[|turns| - 1].after <
            LastSuccess(c, worker, Begin(c, started, expires), started, turns) + Bound(c, brokerTimeout)
  {
    TurnsStayOnSchedule(
      c, brokerTimeout, worker, Begin(c, started, expires), started, started, started, turns);
  }

  lemma {:induction false} LoopStopsAtLastTurn(
    c: Config, brokerTimeout: real, worker: Worker, clock: Clock, from: real, to: real, turns: seq<Turn>)
    requires Timed(c, brokerTimeout, worker, clock, from, to, turns) && Loop(c, worker, clock, turns).Stopping?
    ensures turns != [] && Loop(c, worker, clock, turns).at <= turns[|turns| - 1].after
    decreases |turns|
  {
    var next := Advance(c, worker, clock, turns[0]);
    if next.Running? {
      LoopStopsAtLastTurn(
        c, brokerTimeout, worker, next.clock, turns[0].after, turns[0].after + c.pollInterval, turns[1..]);
    } else {
      assert turns[1..] == [];
    }
  }

  /** The same, for the instant at which stopping the worker begins. */
  lemma StopBeginsInTime(
    c: Config, brokerTimeout: real, worker: Worker, started: real, expires: real, turns: seq<Turn>)
    requires Valid(c, brokerTimeout) && brokerTimeout >= 0.0
    requires Timed(c, brokerTimeout, worker, Begin(c, started, expires), started, started, turns)
    requires Loop(c, worker, Begin(c, started, expires), turns).Stopping?
    ensures Loop(c, worker, Begin(c, started, expires), turns).at <
            LastSuccess(c, worker, Begin(c, started, expires), started, turns) + Bound(c, brokerTimeout)
  {
    LoopStopsAtLastTurn(c, brokerTimeout, worker, Begin(c, started, expires), started, started, turns);
    WorkerIsStoppedInTime(c, brokerTimeout, worker, started, expires, turns);
  }

  // ----- whether the worker is stopped before its lease ends

  /** The broker fixes the end of a lease at some instant of a call that takes at most `brokerTimeout`:
      what is left of the lease when the call returns. */
  ghost predicate Leaves(c: Config, brokerTimeout: real, window: real) {
    exists called: real, fixed: real, returned: real ::
      Answered(brokerTimeout, called, fixed, returned) && window == fixed + c.ttl - returned
  }

  predicate Answered(brokerTimeout: real, called: real, fixed: real, returned: real) {
    called <= fixed <= returned <= called + brokerTimeout
  }

  lemma LeavesIff(c: Config, brokerTimeout: real, window: real)
    requires brokerTimeout >= 0.0
    ensures Leaves(c, brokerTimeout, window) <==> c.ttl - brokerTimeout <= window <= c.ttl
  {
    if c.ttl - brokerTimeout <= window <= c.ttl {
      assert Answered(brokerTimeout, 0.0, 0.0, c.ttl - window);
    }
  }

  /** Whenever the broker answers, at least `window` is left of the lease. */
  predicate LeavesAtLeast(window: real, turns: seq<Turn>) {
    forall i :: 0 <= i < |turns| && turns[i].answer.Renewed? ==> turns[i].answer.expires - turns[i].epoch >= window
  }

  /** The wall clock runs ahead of the monotonic one by the same amount throughout. */
  predicate Steady(ahead: real, turns: seq<Turn>) {
    forall i :: 0 <= i < |turns| ==> turns[i].epoch == turns[i].after + ahead
  }

  /** The end of the lease as the supervisor knows it when the script ends. */
  function LeaseEnd(c: Config, worker: Worker, clock: Clock, turns: seq<Turn>): real
    decreases |turns|
  {
    if turns == [] then clock.expires
    else
      var next := Advance(c, worker, clock, turns[0]);
      if next.Running? then LeaseEnd(c, worker, next.clock, turns[1..])
      else if next.Stopping? && next.why.LeaseLost? then Expiry(clock, turns[0]) else clock.expires
  }

  lemma {:induction false} LeaseReachesFrom(
    c: Config, worker: Worker, clock: Clock, success: real, window: real, ahead: real, turns: seq<Turn>)
    requires clock.expires >= success + window + ahead && window > c.renewInterval
    requires LeavesAtLeast(window, turns) && Steady(ahead, turns)
    ensures LeaseEnd(c, worker, clock, turns) >= LastSuccess(c, worker, clock, success, turns) + window + ahead
    decreases |turns|
  {
    if turns != [] {
      var next := Advance(c, worker, clock, turns[0]);
      if next.Running? {
        var latest := if Due(clock, turns[0]) && Succeeds(c, turns[0]) then turns[0].after else success;
        LeaseReachesFrom(c, worker, next.clock, latest, window, ahead, turns[1..]);
      }
    }
  }

  // ----- what `validate` leaves out: the poll interval

  /** The last turn is the first one in which a renewal is due. */
  predicate FirstAttemptAtEnd(clock: Clock, turns: seq<Turn>) {
    && turns != [] && Due(clock, turns[|turns| - 1])
    && forall i :: 0 <= i < |turns| - 1 ==> !Due(clock, turns[i])
  }

  lemma {:induction false} FirstAttemptIsPrompt(
    c: Config, brokerTimeout: real, worker: Worker, clock: Clock, from: real, to: real, turns: seq<Turn>)
    requires Timed(c, brokerTimeout, worker, clock, from, to, turns) && FirstAttemptAtEnd(clock, turns)
    requires to < clock.nextRenew + c.pollInterval
    ensures turns[|turns| - 1].now < clock.nextRenew + c.pollInterval
    decreases |turns|
  {
    if |turns| > 1 {
      assert !Due(clock, turns[0]);
      assert Advance(c, worker, clock, turns[0]) == Running(clock);
      FirstAttemptIsPrompt(
        c, brokerTimeout, worker, clock, turns[0].after, turns[0].after + c.pollInterval, turns[1..]);
    }
  }

  /** A worker that starts with `window` left of its lease can go on without a single attempt to renew
      until the lease is over. */
  ghost predicate MayOutliveLease(c: Config, brokerTimeout: real, window: real) {
    exists worker: Worker, turns: seq<Turn> ::
      && Timed(c, brokerTimeout, worker, Begin(c, 0.0, window), 0.0, 0.0, turns)
      && FirstAttemptAtEnd(Begin(c, 0.0, window), turns)
      && turns[|turns| - 1].now >= window && !Gone(worker, turns[|turns| - 1].now)
  }

  /** A turn in which nothing is due, or only begins to be. */
  function Quiet(at: real): Turn { Turn(at, None, Refused, at, at) }

  const TIRELESS := Worker(None, 0)

  /** After a poll at `last`, `n` more of them every `step` seconds, then one at `wake` and one at `late`. */
  function Polls(last: real, step: real, n: nat, wake: real, late: real): seq<Turn>
    decreases n
  {
    if n == 0 then [Quiet(wake), Quiet(late)]
    else [Quiet(last + step)] + Polls(last + step, step, n - 1, wake, late)
  }

  lemma {:induction false} PollsAreTimed(
    c: Config, brokerTimeout: real, clock: Clock, last: real, n: nat, wake: real, late: real)
    requires brokerTimeout >= 0.0 && c.pollInterval > 0.0 && clock.nextRenew <= late
    requires wake <= late <= wake + c.pollInterval && wake < clock.nextRenew
    requires last + n as real * c.pollInterval <= wake <= last + (n + 1) as real * c.pollInterval
    ensures var turns := Polls(last, c.pollInterval, n, wake, late);
            && Timed(c, brokerTimeout, TIRELESS, clock, last, last + c.pollInterval, turns)
            && FirstAttemptAtEnd(clock, turns) && turns[|turns| - 1].now == late
    decreases n
  {
    var p := c.pollInterval;
    var turns := Polls(last, p, n, wake, late);
    if n == 0 {
      assert turns[1..] == [Quiet(late)] && [Quiet(late)][1..] == [];
      assert Timed(c, brokerTimeout, TIRELESS, clock, wake, wake + p, [Quiet(late)]);
    } else {
      assert n as real * p == (n - 1) as real * p + p && (n + 1) as real * p == n as real * p + p;
      assert (n - 1) as real * p >= 0.0;
      PollsAreTimed(c, brokerTimeout, clock, last + p, n - 1, wake, late);
      assert turns[1..] == Polls(last + p, p, n - 1, wake, late);
      assert !Due(clock, turns[0]) && turns[|turns| - 1] == turns[1..][|turns| - 2];
      forall i | 0 <= i < |turns| - 1 ensures !Due(clock, turns[i]) {
        if i > 0 { assert turns[i] == turns[1..][i - 1]; }
      }
    }
  }

  /** How often the poll interval fits in `wake`. */
  lemma WholePolls(wake: real, poll: real) returns (n: nat)
    requires wake >= 0.0 && poll > 0.0
    ensures n as real * poll <= wake <= (n + 1) as real * poll
  {
    n := (wake / poll).Floor;
    assert n as real <= wake / poll <= (n + 1) as real;
    assert wake / poll * poll == wake;
  }

  lemma SlowPollingOutlivesLease(c: Config, brokerTimeout: real, window: real)
    requires Valid(c, brokerTimeout) && brokerTimeout >= 0.0
    requires c.renewInterval < window < c.renewInterval + c.pollInterval
    ensures MayOutliveLease(c, brokerTimeout, window)
  {
    var clock := Begin(c, 0.0, window);
    var wake := if window > c.pollInterval then window - c.pollInterval else 0.0;
    var n := WholePolls(wake, c.pollInterval);
    PollsAreTimed(c, brokerTimeout, clock, 0.0, n, wake, window);
    var rest := Polls(0.0, c.pollInterval, n, wake, window);
    var turns := [Quiet(0.0)] + rest;
    assert turns[1..] == rest && turns[|turns| - 1] == rest[|rest| - 1];
    assert Timed(c, brokerTimeout, TIRELESS, clock, 0.0, 0.0, turns);
    forall i | 0 <= i < |turns| - 1 ensures !Due(clock, turns[i]) {
      if i > 0 { assert turns[i] == rest[i - 1]; }
    }
    assert FirstAttemptAtEnd(clock, turns);
  }

  /** `validate` accepts configurations in which that can happen: exactly when the renew and poll
      intervals together exceed what is left of the lease as the worker starts. */
  lemma OutlivesLeaseIff(c: Config, brokerTimeout: real, window: real)
    requires Valid(c, brokerTimeout) && brokerTimeout >= 0.0 && window > c.renewInterval
    ensures MayOutliveLease(c, brokerTimeout, window) <==> c.renewInterval + c.pollInterval > window
  {
    if c.renewInterval + c.pollInterval > window {
      SlowPollingOutlivesLease(c, brokerTimeout, window);
    } else if MayOutliveLease(c, brokerTimeout, window) {
      var worker: Worker, turns: seq<Turn> :|
        && Timed(c, brokerTimeout, worker, Begin(c, 0.0, window), 0.0, 0.0, turns)
        && FirstAttemptAtEnd(Begin(c, 0.0, window), turns)
        && turns[|turns| - 1].now >= window && !Gone(worker, turns[|turns| - 1].now);
      FirstAttemptIsPrompt(c, brokerTimeout, worker, Begin(c, 0.0, window), 0.0, 0.0, turns);
      assert false;
    }
  }

  /** Over all acquisitions: one that lets the worker outlive its lease can be answered exactly when the
      two intervals exceed the time to live less the broker's timeout.  What the broker leaves is always
      more than the renew interval, which is all that `run` asks for. */
  lemma SomeAcquisitionOutlivesIff(c: Config, brokerTimeout: real)
    requires Valid(c, brokerTimeout) && brokerTimeout >= 0.0
    ensures forall window: real :: Leaves(c, brokerTimeout, window) ==> window > c.renewInterval
    ensures (exists window: real :: Leaves(c, brokerTimeout, window) && MayOutliveLease(c, brokerTimeout, window)) <==>
            c.renewInterval + c.pollInterval > c.ttl - brokerTimeout
  {
    forall window: real | Leaves(c, brokerTimeout, window)
      ensures window > c.renewInterval
      ensures MayOutliveLease(c, brokerTimeout, window) ==> c.renewInterval + c.pollInterval > c.ttl - brokerTimeout
    {
      LeavesIff(c, brokerTimeout, window);
      OutlivesLeaseIff(c, brokerTimeout, window);
    }
    if c.renewInterval + c.pollInterval > c.ttl - brokerTimeout {
      LeavesIff(c, brokerTimeout, c.ttl - brokerTimeout);
      OutlivesLeaseIff(c, brokerTimeout, c.ttl - brokerTimeout);
      assert Leaves(c, brokerTimeout, c.ttl - brokerTimeout) &&
             MayOutliveLease(c, brokerTimeout, c.ttl - brokerTimeout);
    }
  }

  /** Such a configuration exists, also one whose two intervals fit in the whole time to live. */
  lemma ValidateIgnoresPolling()
    ensures var c := Config(5.0, 2.45, 1.9, 20.0, 2.4);
            Valid(c, 0.6) && Leaves(c, 0.6, 4.5) && MayOutliveLease(c, 0.6, 4.5)
  {
    LeavesIff(Config(5.0, 2.45, 1.9, 20.0, 2.4), 0.6, 4.5);
    OutlivesLeaseIff(Config(5.0, 2.45, 1.9, 20.0, 2.4), 0.6, 4.5);
  }

  // ----- stopping the worker

  /** What befalls one call of `_stop_worker`: whether a signal cannot be sent, and how long after the
      first wait the worker is looked at. */
  datatype Fate = Fate(termFails: bool, lag: real, killFails: bool)

  datatype Outcome = Down | Survived | Failed

  datatype Stop = Stop(outcome: Outcome, at: real, end: real)

  /** `_stop_worker` beginning at `at`: terminate and wait, kill and wait again. */
  function StopWorker(c: Config, worker: Worker, at: real, fate: Fate): Stop {
    var checked := at + c.shutdownTimeout + fate.lag;
    if Gone(worker, at) then Stop(Down, at, at)
    else if fate.termFails then Stop(Failed, at, at)
    else if Gone(worker, at + c.shutdownTimeout) then Stop(Down, at, worker.exit.value)
    else if Gone(worker, checked) then Stop(Down, at, checked)
    else if fate.killFails then Stop(Failed, at, checked)
    else if Gone(worker, checked + c.shutdownTimeout) then Stop(Down, at, worker.exit.value)
    else Stop(Survived, at, checked + c.shutdownTimeout)
  }

  /** It says that the worker is down only when it is, and that it survived exactly when both signals
      were sent and it outlived both waits. */
  lemma StoppingTells(c: Config, worker: Worker, at: real, fate: Fate)
    requires c.shutdownTimeout > 0.0 && fate.lag >= 0.0
    ensures var s := StopWorker(c, worker, at, fate);
            && at <= s.end <= at + 2.0 * c.shutdownTimeout + fate.lag
            && (s.outcome == Down ==> Gone(worker, s.end))
            && (s.outcome == Failed ==> !Gone(worker, s.end) && (fate.termFails || fate.killFails))
            && (s.outcome == Survived <==>
                  !fate.termFails && !fate.killFails && !Gone(worker, at + 2.0 * c.shutdownTimeout + fate.lag))
  {
  }

  // ----- every way out

  datatype Acquisition = Unavailable | NoSocket | Granted(expires: real, epoch: real)

  datatype Action = Acquire(at: real) | Spawn(at: real) | StopFrom(at: real) | ReleaseLease(at: real)

  /** What the world answers: the acquisition and when, whether the worker starts and what it does, the turns
      of the loop, what befalls up to two attempts to stop the worker, and how long after them it is
      polled for the last time. */
  datatype World = World(
    acquisition: Acquisition, started: real, spawns: bool, worker: Worker, turns: seq<Turn>,
    first: Fate, second: Fate, pause: real)

  datatype Result = Rejected | Code(code: int) | Raised | NotYet

  /** The handlers and the `finally` clause up to the last poll: what is returned, the attempts to stop
      the worker, when that poll is, and whether an exception skips it together with the release. */
  datatype WayOut = WayOut(result: Result, stops: seq<Stop>, last: real, skipped: bool)

  function Leave(c: Config, w: World, e: Ending): WayOut
    requires !e.Running?
  {
    if e.Exited? then WayOut(Code(e.code), [], e.at + w.pause, false)
    else
      var s1 := StopWorker(c, w.worker, e.at, w.first);
      var s2 := StopWorker(c, w.worker, s1.end, w.second);
      match e.why
      case CallUnexpected =>
        if Gone(w.worker, e.at) then WayOut(Raised, [], e.at + w.pause, false)
        else WayOut(Raised, [s1], s1.end + w.pause, s1.outcome == Failed)
      case CallBroken =>
        WayOut(if s1.outcome == Failed then Raised else Code(EXIT_CONFIGURATION_ERROR), [s1], s1.end + w.pause, false)
      case _ =>
        if s1.outcome == Failed
        then WayOut(if s2.outcome == Failed then Raised else Code(EXIT_CONFIGURATION_ERROR), [s1, s2],
                    s2.end + w.pause, false)
        else WayOut(Code(if e.why.Signalled? then 128 + e.why.signal else EXIT_TEMPORARY_FAILURE), [s1],
                    s1.end + w.pause, false)
  }

  function StopActions(stops: seq<Stop>): seq<Action> {
    if stops == [] then [] else [StopFrom(stops[0].at)] + StopActions(stops[1..])
  }

  /** The acquisition and the start of the worker succeed. */
  predicate Starts(c: Config, w: World) {
    w.acquisition.Granted? && w.acquisition.expires - w.acquisition.epoch > c.renewInterval && w.spawns
  }

  function EndingOf(c: Config, w: World): Ending
    requires w.acquisition.Granted?
  {
    Loop(c, w.worker, Begin(c, w.started, w.acquisition.expires), w.turns)
  }

  /** What `run` returns, and everything it did, in order.  A run whose script ends first has not
      returned. */
  function RunSpec(c: Config, brokerTimeout: real, w: World): (Result, seq<Action>) {
    var acquired := [Acquire(w.started)];
    if !Valid(c, brokerTimeout) then (Rejected, [])
    else if w.acquisition.Unavailable? then (Code(EXIT_TEMPORARY_FAILURE), acquired)
    else if w.acquisition.NoSocket? then (Code(EXIT_CONFIGURATION_ERROR), acquired)
    else if w.acquisition.expires - w.acquisition.epoch <= c.renewInterval then
      (Code(EXIT_TEMPORARY_FAILURE), acquired + [ReleaseLease(w.started)])
    else if !w.spawns then (Code(EXIT_CONFIGURATION_ERROR), acquired + [ReleaseLease(w.started)])
    else
      var e := EndingOf(c, w);
      if e.Running? then (NotYet, acquired + [Spawn(w.started)])
      else
        var out := Leave(c, w, e);
        (out.result,
         acquired + [Spawn(w.started)] + StopActions(out.stops) +
         if !out.skipped && Gone(w.worker, out.last) then [ReleaseLease(out.last)] else [])
  }

  /** Time does not run backwards while the worker is being stopped. */
  predicate Sane(w: World) { w.first.lag >= 0.0 && w.second.lag >= 0.0 && w.pause >= 0.0 }

  lemma {:induction false} StopsAreStops(stops: seq<Stop>)
    ensures |StopActions(stops)| == |stops|
    ensures forall i :: 0 <= i < |stops| ==> StopActions(stops)[i] == StopFrom(stops[i].at)
    decreases |stops|
  {
    if stops != [] { StopsAreStops(stops[1..]); }
  }

  /** The lease is released at most once and as the last thing done, and then the worker never started or
      has exited. */
  lemma ReleasedOnlyWhenGone(c: Config, brokerTimeout: real, w: World, k: nat)
    ensures var (result, actions) := RunSpec(c, brokerTimeout, w);
            k < |actions| && actions[k].ReleaseLease? ==>
              && k == |actions| - 1 && w.acquisition.Granted?
              && (Gone(w.worker, actions[k].at) || forall i :: 0 <= i < |actions| ==> !actions[i].Spawn?)
  {
    var (result, actions) := RunSpec(c, brokerTimeout, w);
    if Valid(c, brokerTimeout) && Starts(c, w) && !EndingOf(c, w).Running? {
      StopsAreStops(Leave(c, w, EndingOf(c, w)).stops);
    }
  }

  ghost predicate Released(actions: seq<Action>) {
    exists k :: 0 <= k < |actions| && actions[k].ReleaseLease?
  }

  lemma Unreleased(c: Config, brokerTimeout: real, w: World)
    requires Valid(c, brokerTimeout) && Starts(c, w) && !EndingOf(c, w).Running?
    ensures var out := Leave(c, w, EndingOf(c, w));
            Released(RunSpec(c, brokerTimeout, w).1) <==> !out.skipped && Gone(w.worker, out.last)
  {
    var out := Leave(c, w, EndingOf(c, w));
    StopsAreStops(out.stops);
    var actions := RunSpec(c, brokerTimeout, w).1;
    if !out.skipped && Gone(w.worker, out.last) {
      assert actions[|actions| - 1] == ReleaseLease(out.last);
    }
  }

  /** A granted lease stays unreleased exactly when the last attempt to stop the worker left it alive,
      after both waits or because a signal could not be sent, and it is still alive at the last poll, or
      when that attempt failed on the way out of an unexpected exception. */
  lemma UnreleasedIff(c: Config, brokerTimeout: real, w: World)
    requires Valid(c, brokerTimeout) && Sane(w) && w.acquisition.Granted?
    ensures var (result, actions) := RunSpec(c, brokerTimeout, w);
            result != NotYet ==>
              (!Released(actions) <==>
                && Starts(c, w)
                && var out := Leave(c, w, EndingOf(c, w));
                   && out.stops != [] && out.stops[|out.stops| - 1].outcome != Down
                   && (!Gone(w.worker, out.last) || out.skipped))
    ensures Starts(c, w) && !EndingOf(c, w).Running? ==>
              forall s :: s in Leave(c, w, EndingOf(c, w)).stops && s.outcome == Survived ==>
                s.end >= s.at + 2.0 * c.shutdownTimeout && !Gone(w.worker, s.end)
  {
    if !Starts(c, w) {
      var actions := RunSpec(c, brokerTimeout, w).1;
      assert actions[|actions| - 1] == ReleaseLease(w.started);
    } else if !EndingOf(c, w).Running? {
      var e := EndingOf(c, w);
      Unreleased(c, brokerTimeout, w);
      ExitIsSeen(c, w.worker, Begin(c, w.started, w.acquisition.expires), w.turns);
      if e.Stopping? {
        var s1 := StopWorker(c, w.worker, e.at, w.first);
        StoppingTells(c, w.worker, e.at, w.first);
        StoppingTells(c, w.worker, s1.end, w.second);
      }
    }
  }

  lemma {:induction false} ExitIsSeen(c: Config, worker: Worker, clock: Clock, turns: seq<Turn>)
    ensures Loop(c, worker, clock, turns).Exited? ==> Gone(worker, Loop(c, worker, clock, turns).at)
    decreases |turns|
  {
    if turns != [] && Advance(c, worker, clock, turns[0]).Running? {
      ExitIsSeen(c, worker, Advance(c, worker, clock, turns[0]).clock, turns[1..]);
    }
  }

  // ----- the supervisor itself

  method Run(c: Config, brokerTimeout: real, w: World) returns (result: Result, actions: seq<Action>)
    ensures result == RunSpec(c, brokerTimeout, w).0 && actions == RunSpec(c, brokerTimeout, w).1
  {
    if !Valid(c, brokerTimeout) { return Rejected, []; }
    actions := [Acquire(w.started)];
    if w.acquisition.Unavailable? { return Code(EXIT_TEMPORARY_FAILURE), actions; }
    if w.acquisition.NoSocket? { return Code(EXIT_CONFIGURATION_ERROR), actions; }
    if w.acquisition.expires - w.acquisition.epoch <= c.renewInterval {
      return Code(EXIT_TEMPORARY_FAILURE), actions + [ReleaseLease(w.started)];
    }
    if !w.spawns { return Code(EXIT_CONFIGURATION_ERROR), actions + [ReleaseLease(w.started)]; }
    actions := actions + [Spawn(w.started)];
    var ending := RunLoop(c, w);
    if ending.Running? { return NotYet, actions; }
    var out := FinishRun(c, w, ending);
    actions := actions + StopActions(out.stops);
    result := out.result;
    if !out.skipped && Gone(w.worker, out.last) { actions := actions + [ReleaseLease(out.last)]; }
  }

  method RunLoop(c: Config, w: World) returns (ending: Ending)
    requires w.acquisition.Granted?
    ensures ending == EndingOf(c, w)
  {
    var nextRenew := w.started + c.renewInterval;
    var failingSince: Option<real> := None;
    var expires := w.acquisition.expires;
    var i := 0;
    assert w.turns[0..] == w.turns;
    while i < |w.turns|
      invariant 0 <= i <= |w.turns|
      invariant EndingOf(c, w) == Loop(c, w.worker, Clock(nextRenew, failingSince, expires), w.turns[i..])
    {
      var turn := w.turns[i];
      assert w.turns[i..][0] == turn && w.turns[i..][1..] == w.turns[i + 1..];
      i := i + 1;
      if Gone(w.worker, turn.now) { return Exited(ExitCode(w.worker.code), turn.now); }
      if turn.signal.Some? { return Stopping(Signalled(turn.signal.value), turn.now); }
      if turn.now >= nextRenew {
        if turn.answer.Broken? { return Stopping(CallBroken, turn.after); }
        if turn.answer.Unexpected? { return Stopping(CallUnexpected, turn.after); }
        if turn.answer.Renewed? { expires := turn.answer.expires; }
        if turn.answer.Renewed? && expires - turn.epoch > c.renewInterval {
          failingSince := None;
          nextRenew := turn.after + c.renewInterval;
        } else {
          if failingSince.None? { failingSince := Some(turn.now); }
          if turn.after - failingSince.value >= c.grace || turn.epoch >= expires {
            return Stopping(LeaseLost, turn.after);
          }
          nextRenew := turn.after + RetryDelay(c);
        }
      }
    }
    assert w.turns[i..] == [];
    return Running(Clock(nextRenew, failingSince, expires));
  }

  /** The handlers and the `finally` clause, with `shutdown_attempted` as in the source. */
  method FinishRun(c: Config, w: World, e: Ending) returns (out: WayOut)
    requires !e.Running?
    ensures out == Leave(c, w, e)
  {
    var shutdownAttempted, raised := false, false;
    var stops: seq<Stop>, at := [], e.at;
    var result := Raised;
    if e.Exited? {
      result := Code(e.code);
    } else if !e.why.CallUnexpected? {
      shutdownAttempted := true;
      var stop := StopWorker(c, w.worker, at, w.first);
      stops, at := [stop], stop.end;
      if e.why.CallBroken? {
        result := if stop.outcome == Failed then Raised else Code(EXIT_CONFIGURATION_ERROR);
      } else if stop.outcome == Failed {
        stop := StopWorker(c, w.worker, at, w.second);
        stops, at := stops + [stop], stop.end;
        result := if stop.outcome == Failed then Raised else Code(EXIT_CONFIGURATION_ERROR);
      } else {
        result := Code(if e.why.Signalled? then 128 + e.why.signal else EXIT_TEMPORARY_FAILURE);
      }
    }
    if e.Stopping? && !Gone(w.worker, at) && !shutdownAttempted {
      var stop := StopWorker(c, w.worker, at, w.first);
      stops, at, raised := stops + [stop], stop.end, stop.outcome == Failed;
    }
    return WayOut(result, stops, at + w.pause, raised);
  }
}
