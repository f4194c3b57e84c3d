/** The latest instant at which a supervised worker is stopped, and when that is before its lease ends
    (`LeaseSupervisor.run` and `RunnerConfig.validate` in
    services/accelerator/src/openclaw_accelerator/runner.py).
 */
module LeaseDeadline {
  import opened Wrappers
  import opened LeaseSupervisor

  /** From one failed renewal to the next: less than this. */
  function Gap(c: Config, brokerTimeout: real): real { RetryDelay(c) + c.pollInterval + brokerTimeout }

  /** `n` retries fit in the grace time, one more does not. */
  predicate LastRetry(c: Config, n: nat) {
    n as real * RetryDelay(c) < c.grace <= (n as real + 1.0) * RetryDelay(c)
  }

  /** How long after its first failing renewal a run can have one that leaves grace: less than the grace time,
      and no more than as many gaps as retries. */
  function Reach(c: Config, brokerTimeout: real, n: nat): real {
    Min(c.grace, n as real * Gap(c, brokerTimeout) + brokerTimeout)
  }

  function Deadline(c: Config, brokerTimeout: real, n: nat): real {
    c.renewInterval + c.pollInterval + Reach(c, brokerTimeout, n) + Gap(c, brokerTimeout)
  }

  lemma Times(a: real, b: real, r: real)
    requires a <= b && r >= 0.0
    ensures a * r <= b * r && (a < b && r > 0.0 ==> a * r < b * r)
  {
    assert (b - a) * r >= 0.0;
    if a < b && r > 0.0 { assert (b - a) * r > 0.0; }
  }

  lemma RetriesTakeTime(c: Config)
    requires c.renewInterval > 0.0
    ensures RetryDelay(c) > 0.0
  {
  }

  lemma LastRetryExists(c: Config) returns (n: nat)
    requires c.grace > 0.0 && c.renewInterval > 0.0
    ensures LastRetry(c, n)
  {
    hide RetryDelay;
    RetriesTakeTime(c);
    assert c.grace / RetryDelay(c) > 0.0;
    var q := c.grace / RetryDelay(c);
    n := Below(q);
    Divides(c.grace, RetryDelay(c), q);
    Times(n as real, q, RetryDelay(c));
    Times(q, n as real + 1.0, RetryDelay(c));
  }

  lemma Below(q: real) returns (n: nat)
    requires q > 0.0
    ensures n as real < q <= n as real + 1.0
  {
    n := q.Floor;
    if n as real == q { n := n - 1; }
  }

  lemma Divides(a: real, b: real, q: real)
    requires b > 0.0 && q == a / b
    ensures q * b == a
  {
  }

  // ----- no later

  /** After `k` retries: the last failing renewal returned `x` after the first one began. */
  ghost predicate OnTrack(c: Config, brokerTimeout: real, clock: Clock, success: real, to: real, k: nat) {
    match clock.failingSince
    case None =>
      clock.nextRenew == success + c.renewInterval && to < success + c.renewInterval + c.pollInterval
    case Some(since) =>
      var x := clock.nextRenew - RetryDelay(c) - since;
      && since < success + c.renewInterval + c.pollInterval && to < clock.nextRenew + c.pollInterval
      && k as real * RetryDelay(c) <= x < c.grace
      && x <= k as real * Gap(c, brokerTimeout) + brokerTimeout
  }

  lemma ReachesSoFar(c: Config, brokerTimeout: real, n: nat, k: nat, x: real)
    requires c.renewInterval > 0.0 && c.pollInterval > 0.0 && brokerTimeout >= 0.0 && LastRetry(c, n)
    requires k as real * RetryDelay(c) <= x < c.grace && x <= k as real * Gap(c, brokerTimeout) + brokerTimeout
    ensures x <= Reach(c, brokerTimeout, n)
  {
    hide RetryDelay;
    RetriesTakeTime(c);
    var r, g := RetryDelay(c), Gap(c, brokerTimeout);
    if k > n {
      Times(n as real + 1.0, k as real, r);
      assert false;
    }
    Times(k as real, n as real, g);
  }

  lemma {:induction false} TurnsStayOnTrack(
    c: Config, brokerTimeout: real, n: nat, worker: Worker, clock: Clock, success: real, from: real, to: real, k: nat,
    turns: seq<Turn>)
    requires c.renewInterval > 0.0 && c.grace > 0.0 && c.pollInterval > 0.0 && brokerTimeout >= 0.0
    requires LastRetry(c, n) && OnTrack(c, brokerTimeout, clock, success, to, k)
    requires Timed(c, brokerTimeout, worker, clock, from, to, turns) && turns != []
    ensures turns[|turns| - 1].after < LastSuccess(c, worker, clock, success, turns) + Deadline(c, brokerTimeout, n)
    decreases |turns|
  {
    hide LastRetry, Deadline;
    var turn := turns[0];
    var next := Advance(c, worker, clock, turn);
    EachIsInTime(c, brokerTimeout, n, clock, success, to, k, turn);
    NothingYet(c, brokerTimeout, n);
    if next.Running? && turns[1..] != [] {
      var latest := if Due(clock, turn) && Succeeds(c, turn) then turn.after else success;
      var retries := if !Due(clock, turn) then k else if clock.failingSince.Some? then k + 1 else 0;
      NextIsOnTrack(c, brokerTimeout, worker, clock, success, to, k, turn);
      TurnsStayOnTrack(
        c, brokerTimeout, n, worker, next.clock, latest, turn.after, turn.after + c.pollInterval, retries, turns[1..]);
    } else {
      assert turns[1..] == [];
    }
  }

  lemma EachIsInTime(c: Config, brokerTimeout: real, n: nat, clock: Clock, success: real, to: real, k: nat, turn: Turn)
    requires c.renewInterval > 0.0 && c.grace > 0.0 && c.pollInterval > 0.0 && brokerTimeout >= 0.0
    requires LastRetry(c, n) && OnTrack(c, brokerTimeout, clock, success, to, k)
    requires turn.now <= to && turn.after <= turn.now + brokerTimeout
    ensures turn.after < success + Deadline(c, brokerTimeout, n)
  {
    match clock.failingSince
    case None => NothingYet(c, brokerTimeout, n);
    case Some(since) => ReachesSoFar(c, brokerTimeout, n, k, clock.nextRenew - RetryDelay(c) - since);
  }

  lemma NothingYet(c: Config, brokerTimeout: real, n: nat)
    requires c.grace > 0.0 && c.renewInterval > 0.0 && c.pollInterval > 0.0 && brokerTimeout >= 0.0
    ensures Reach(c, brokerTimeout, n) >= 0.0 && Deadline(c, brokerTimeout, n) > 0.0
  {
    hide RetryDelay;
    RetriesTakeTime(c);
    Times(0.0, n as real, Gap(c, brokerTimeout));
  }

  lemma NextIsOnTrack(
    c: Config, brokerTimeout: real, worker: Worker, clock: Clock, success: real, to: real, k: nat, turn: Turn)
    requires c.renewInterval > 0.0 && c.grace > 0.0 && c.pollInterval > 0.0 && brokerTimeout >= 0.0
    requires OnTrack(c, brokerTimeout, clock, success, to, k) && Advance(c, worker, clock, turn).Running?
    requires turn.now <= to
    requires turn.now <= turn.after <= (if Due(clock, turn) then turn.now + brokerTimeout else turn.now)
    ensures var latest := if Due(clock, turn) && Succeeds(c, turn) then turn.after else success;
            var retries := if !Due(clock, turn) then k else if clock.failingSince.Some? then k + 1 else 0;
            var next := Advance(c, worker, clock, turn).clock;
            OnTrack(c, brokerTimeout, next, latest, turn.after + c.pollInterval, retries)
  {
    hide RetryDelay;
    RetriesTakeTime(c);
    var r, g := RetryDelay(c), Gap(c, brokerTimeout);
    assert (k + 1) as real == k as real + 1.0;
    assert (k + 1) as real * r == k as real * r + r;
    assert (k + 1) as real * g == k as real * g + g;
    assert 0 as real * r == 0.0 && 0 as real * g == 0.0;
    if Due(clock, turn) && !Succeeds(c, turn) && clock.failingSince.Some? {
      var since := clock.failingSince.value;
      var x := clock.nextRenew - r - since;
      assert turn.after - since <= x + g;
    }
  }

  /** In every run: no turn ends at the deadline after the last success, or later. */
  lemma StopsByDeadline(
    c: Config, brokerTimeout: real, n: nat, worker: Worker, started: real, expires: real, turns: seq<Turn>)
    requires Valid(c, brokerTimeout) && brokerTimeout >= 0.0 && LastRetry(c, n)
    requires Timed(c, brokerTimeout, worker, Begin(c, started, expires), started, started, turns)
    requires Loop(c, worker, Begin(c, started, expires), turns).Stopping?
    ensures Loop(c, worker, Begin(c, started, expires), turns).at <
            LastSuccess(c, worker, Begin(c, started, expires), started, turns) + Deadline(c, brokerTimeout, n)
  {
    LoopStopsAtLastTurn(c, brokerTimeout, worker, Begin(c, started, expires), started, started, turns);
    TurnsStayOnTrack(
      c, brokerTimeout, n, worker, Begin(c, started, expires), started, started, started, 0, turns);
  }

  /** With failing renewals and all: where the deadline is within what every answer leaves of the lease,
      stopping the worker begins before its lease ends. */
  lemma StopsBeforeLeaseEnds(
    c: Config, brokerTimeout: real, n: nat, worker: Worker, started: real, expires: real, turns: seq<Turn>,
    window: real, ahead: real)
    requires Valid(c, brokerTimeout) && brokerTimeout >= 0.0 && LastRetry(c, n)
    requires Timed(c, brokerTimeout, worker, Begin(c, started, expires), started, started, turns)
    requires Loop(c, worker, Begin(c, started, expires), turns).Stopping?
    requires Steady(ahead, turns) && LeavesAtLeast(window, turns) && expires - (started + ahead) >= window
    requires window > c.renewInterval && Deadline(c, brokerTimeout, n) <= window
    ensures Loop(c, worker, Begin(c, started, expires), turns).at + ahead <
            LeaseEnd(c, worker, Begin(c, started, expires), turns)
  {
    StopsByDeadline(c, brokerTimeout, n, worker, started, expires, turns);
    LeaseReachesFrom(c, worker, Begin(c, started, expires), started, window, ahead, turns);
  }

  // ----- no earlier

  /** Every renewal fails, nobody asks to stop, and both clocks agree. */
  predicate Failing(turns: seq<Turn>) {
    forall i :: 0 <= i < |turns| ==>
      turns[i].answer == Refused && turns[i].signal == None && turns[i].epoch == turns[i].after
  }

  /** From a turn that ended at `last`, the worker can go on until `end`, when it is stopped. */
  ghost predicate Late(c: Config, brokerTimeout: real, clock: Clock, last: real, end: real) {
    exists turns :: LateBy(c, brokerTimeout, clock, last, end, turns)
  }

  ghost predicate LateBy(c: Config, brokerTimeout: real, clock: Clock, last: real, end: real, turns: seq<Turn>) {
    && Timed(c, brokerTimeout, TIRELESS, clock, last, last + c.pollInterval, turns) && Failing(turns)
    && Loop(c, TIRELESS, clock, turns).Stopping? && Loop(c, TIRELESS, clock, turns).at >= end
  }

  /** Quiet polls fill the time until a turn at `now`, before which nothing is due for a poll interval. */
  lemma {:induction false} WaitFor(
    c: Config, brokerTimeout: real, clock: Clock, last: real, now: real, end: real, turns: seq<Turn>, n: nat)
    requires brokerTimeout >= 0.0 && c.pollInterval > 0.0 && last <= now < clock.nextRenew + c.pollInterval
    requires now - last <= (n as real + 1.0) * c.pollInterval
    requires turns != [] && turns[0].now == now && Failing(turns)
    requires Timed(c, brokerTimeout, TIRELESS, clock, now, now, turns)
    requires Loop(c, TIRELESS, clock, turns).Stopping? && Loop(c, TIRELESS, clock, turns).at >= end
    ensures Late(c, brokerTimeout, clock, last, end)
    decreases n
  {
    var p := c.pollInterval;
    if now <= last + p {
      assert LateBy(c, brokerTimeout, clock, last, end, turns);
    } else {
      assert (n as real + 1.0) * p == ((n - 1) as real + 1.0) * p + p;
      var poll := if last + p < clock.nextRenew then last + p else now - p;
      if n > 1 { Times(1.0, (n - 1) as real + 1.0, p); }
      WaitFor(c, brokerTimeout, clock, poll, now, end, turns, n - 1);
      var rest :| LateBy(c, brokerTimeout, clock, poll, end, rest);
      var all := [Quiet(poll)] + rest;
      assert all[1..] == rest && all[0] == Quiet(poll);
      assert Advance(c, TIRELESS, clock, Quiet(poll)) == Running(clock);
      assert LateBy(c, brokerTimeout, clock, last, end, all);
    }
  }

  function Attempt(now: real, after: real): Turn { Turn(now, None, Refused, after, after) }

  /** An attempt that begins at `now` and returns at `after`. */
  lemma AttemptLeads(
    c: Config, brokerTimeout: real, clock: Clock, last: real, now: real, after: real, end: real)
    requires brokerTimeout >= 0.0 && c.pollInterval > 0.0 && clock.expires == end
    requires last <= now && clock.nextRenew <= now < clock.nextRenew + c.pollInterval
    requires now <= after <= now + brokerTimeout
    ensures after >= end ==> Late(c, brokerTimeout, clock, last, end)
    ensures var since := if clock.failingSince.Some? then clock.failingSince.value else now;
            after < end && after - since < c.grace &&
            Late(c, brokerTimeout, Clock(after + RetryDelay(c), Some(since), end), after, end) ==>
              Late(c, brokerTimeout, clock, last, end)
  {
    var turn := Attempt(now, after);
    var since := if clock.failingSince.Some? then clock.failingSince.value else now;
    var next := Clock(after + RetryDelay(c), Some(since), end);
    var n := EnoughPolls(now - last, c.pollInterval);
    if after >= end {
      assert [turn][1..] == [];
      assert Advance(c, TIRELESS, clock, turn) == Stopping(LeaseLost, after);
      WaitFor(c, brokerTimeout, clock, last, now, end, [turn], n);
    } else if after - since < c.grace && Late(c, brokerTimeout, next, after, end) {
      var rest :| LateBy(c, brokerTimeout, next, after, end, rest);
      var turns := [turn] + rest;
      assert turns[1..] == rest && turns[0] == turn;
      assert Advance(c, TIRELESS, clock, turn) == Running(next);
      WaitFor(c, brokerTimeout, clock, last, now, end, turns, n);
    }
  }

  lemma EnoughPolls(wait: real, poll: real) returns (n: nat)
    requires wait >= 0.0 && poll > 0.0
    ensures wait <= (n as real + 1.0) * poll
  {
    n := (wait / poll).Floor;
    Divides(wait, poll, wait / poll);
    Times(wait / poll, n as real + 1.0, poll);
  }

  /** A retry returns any time from the retry delay up to the gap after the one before it. */
  lemma RetryLeads(c: Config, brokerTimeout: real, since: real, x: real, d: real, end: real)
    requires brokerTimeout >= 0.0 && c.pollInterval > 0.0 && c.renewInterval > 0.0
    requires RetryDelay(c) <= d < Gap(c, brokerTimeout)
    ensures var clock := Clock(since + x + RetryDelay(c), Some(since), end);
            && (since + x + d >= end ==> Late(c, brokerTimeout, clock, since + x, end))
            && var after := since + (x + d);
               (since + x + d < end && x + d < c.grace &&
                Late(c, brokerTimeout, Clock(after + RetryDelay(c), Some(since), end), after, end) ==>
                  Late(c, brokerTimeout, clock, since + x, end))
  {
    var r := RetryDelay(c);
    RetriesTakeTime(c);
    var clock := Clock(since + x + r, Some(since), end);
    var after := since + x + d;
    var now := if d - r <= brokerTimeout then since + x + r else after - brokerTimeout;
    hide RetryDelay, Late;
    AttemptLeads(c, brokerTimeout, clock, since + x, now, after, end);
    assert after == since + (x + d);
  }

  /** `k` retries `d` apart, which leave grace, and a last one `f` after them. */
  lemma {:induction false} RetriesLead(
    c: Config, brokerTimeout: real, since: real, x: real, k: nat, d: real, f: real, end: real)
    requires brokerTimeout >= 0.0 && c.pollInterval > 0.0 && c.renewInterval > 0.0
    requires RetryDelay(c) <= d < Gap(c, brokerTimeout) && RetryDelay(c) <= f < Gap(c, brokerTimeout)
    requires x + k as real * d < c.grace && since + (x + k as real * d) + f >= end
    ensures Late(c, brokerTimeout, Clock(since + x + RetryDelay(c), Some(since), end), since + x, end)
    decreases k
  {
    RetriesTakeTime(c);
    hide RetryDelay, Late, Gap;
    if k == 0 {
      assert k as real * d == 0.0;
      RetryLeads(c, brokerTimeout, since, x, f, end);
    } else {
      assert k as real == (k - 1) as real + 1.0;
      assert k as real * d == (k - 1) as real * d + d;
      Times(0.0, (k - 1) as real, d);
      RetryLeads(c, brokerTimeout, since, x, d, end);
      if since + x + d < end { RetriesLead(c, brokerTimeout, since, x + d, k - 1, d, f, end); }
    }
  }

  /** The first failing renewal begins at `since` and returns `x` later. */
  lemma FirstLeads(c: Config, brokerTimeout: real, since: real, x: real, k: nat, d: real, f: real, end: real)
    requires brokerTimeout >= 0.0 && c.pollInterval > 0.0 && c.renewInterval > 0.0 && end > 0.0
    requires RetryDelay(c) <= d < Gap(c, brokerTimeout) && RetryDelay(c) <= f < Gap(c, brokerTimeout)
    requires c.renewInterval <= since < c.renewInterval + c.pollInterval && 0.0 <= x <= brokerTimeout
    requires x + k as real * d < c.grace && since + (x + k as real * d) + f >= end
    ensures Late(c, brokerTimeout, Begin(c, 0.0, end), 0.0, end)
  {
    RetriesTakeTime(c);
    hide RetryDelay, Late, Gap;
    if since + x < end {
      Times(0.0, k as real, d);
      assert 0.0 * d == 0.0;
      RetriesLead(c, brokerTimeout, since, x, k, d, f, end);
    }
    AttemptLeads(c, brokerTimeout, Begin(c, 0.0, end), 0.0, since, since + x, end);
  }

  /** A spread of `n` retries over what lies between the retry delays and `y`. */
  lemma Spread(r: real, gap: real, brokerTimeout: real, n: nat, y: real) returns (x: real, d: real)
    requires 0.0 < r < gap && brokerTimeout >= 0.0
    requires n as real * r <= y
    requires y < n as real * gap + brokerTimeout || y == n as real * r
    ensures r <= d < gap && 0.0 <= x <= brokerTimeout && x + n as real * d == y
  {
    if y <= brokerTimeout + n as real * r {
      x, d := y - n as real * r, r;
    } else {
      x, d := brokerTimeout, (y - brokerTimeout) / n as real;
      Divides(y - brokerTimeout, n as real, d);
      if d < r { Times(d, r, n as real); }
      if d >= gap { Times(gap, d, n as real); }
    }
  }

  lemma EndsLate(c: Config, brokerTimeout: real, n: nat, end: real)
    requires Valid(c, brokerTimeout) && brokerTimeout >= 0.0 && LastRetry(c, n)
    requires 0.0 < end < Deadline(c, brokerTimeout, n)
    ensures Late(c, brokerTimeout, Begin(c, 0.0, end), 0.0, end)
  {
    RetriesTakeTime(c);
    hide RetryDelay, Late;
    var r, gap := RetryDelay(c), Gap(c, brokerTimeout);
    var e := Min((Deadline(c, brokerTimeout, n) - end) / 3.0, c.pollInterval);
    var reach := Reach(c, brokerTimeout, n);
    var y := if reach - e > n as real * r then reach - e else n as real * r;
    var x, d := Spread(r, gap, brokerTimeout, n, y);
    FirstLeads(c, brokerTimeout, c.renewInterval + c.pollInterval - e, x, n, d, gap - e, end);
  }

  /** A worker that starts with `window` left of its lease, all of whose renewals fail, can still be running
      when the lease is over. */
  ghost predicate MayOutliveFailing(c: Config, brokerTimeout: real, window: real) {
    exists worker: Worker, turns: seq<Turn> :: OutlivesFailing(c, brokerTimeout, window, worker, turns)
  }

  ghost predicate OutlivesFailing(c: Config, brokerTimeout: real, window: real, worker: Worker, turns: seq<Turn>) {
    && Timed(c, brokerTimeout, worker, Begin(c, 0.0, window), 0.0, 0.0, turns) && Failing(turns)
    && Loop(c, worker, Begin(c, 0.0, window), turns).Stopping?
    && Loop(c, worker, Begin(c, 0.0, window), turns).at >= window
  }

  lemma {:induction false} FailingHasNoSuccess(c: Config, worker: Worker, clock: Clock, start: real, turns: seq<Turn>)
    requires Failing(turns)
    ensures LastSuccess(c, worker, clock, start, turns) == start
    decreases |turns|
  {
    if turns != [] && Advance(c, worker, clock, turns[0]).Running? {
      assert turns[0].answer == Refused;
      FailingHasNoSuccess(c, worker, Advance(c, worker, clock, turns[0]).clock, start, turns[1..]);
    }
  }

  /** `validate` accepts configurations in which that can happen: exactly when the deadline is later than what
      is left of the lease as the worker starts. */
  lemma OutlivesFailingIff(c: Config, brokerTimeout: real, n: nat, window: real)
    requires Valid(c, brokerTimeout) && brokerTimeout >= 0.0 && LastRetry(c, n) && window > c.renewInterval
    ensures MayOutliveFailing(c, brokerTimeout, window) <==> Deadline(c, brokerTimeout, n) > window
  {
    if Deadline(c, brokerTimeout, n) > window {
      EndsLate(c, brokerTimeout, n, window);
      hide Deadline, LastRetry;
      var clock := Begin(c, 0.0, window);
      var rest :| LateBy(c, brokerTimeout, clock, 0.0, window, rest);
      var turns := [Quiet(0.0)] + rest;
      assert turns[1..] == rest && turns[0] == Quiet(0.0);
      assert Advance(c, TIRELESS, clock, Quiet(0.0)) == Running(clock);
      assert OutlivesFailing(c, brokerTimeout, window, TIRELESS, turns);
    } else if MayOutliveFailing(c, brokerTimeout, window) {
      var worker: Worker, turns: seq<Turn> :| OutlivesFailing(c, brokerTimeout, window, worker, turns);
      StopsByDeadline(c, brokerTimeout, n, worker, 0.0, window, turns);
      FailingHasNoSuccess(c, worker, Begin(c, 0.0, window), 0.0, turns);
      assert false;
    }
  }

  /** Over all acquisitions: the worker is stopped before its lease ends, whatever the broker answers and
      however its renewals fail, exactly when the deadline is within the time to live less the broker's
      timeout. */
  lemma SafeConfigurations(c: Config, brokerTimeout: real, n: nat)
    requires Valid(c, brokerTimeout) && brokerTimeout >= 0.0 && LastRetry(c, n)
    ensures (forall window: real :: Leaves(c, brokerTimeout, window) ==> !MayOutliveFailing(c, brokerTimeout, window))
            <==> Deadline(c, brokerTimeout, n) <= c.ttl - brokerTimeout
  {
    forall window: real | Leaves(c, brokerTimeout, window)
      ensures window >= c.ttl - brokerTimeout && window > c.renewInterval
      ensures MayOutliveFailing(c, brokerTimeout, window) ==> Deadline(c, brokerTimeout, n) > c.ttl - brokerTimeout
    {
      LeavesIff(c, brokerTimeout, window);
      OutlivesFailingIff(c, brokerTimeout, n, window);
    }
    LeavesIff(c, brokerTimeout, c.ttl - brokerTimeout);
    OutlivesFailingIff(c, brokerTimeout, n, c.ttl - brokerTimeout);
  }

  /** The deadline is within the bound that takes the whole grace time. */
  lemma DeadlineIsWithinBound(c: Config, brokerTimeout: real, n: nat)
    ensures Deadline(c, brokerTimeout, n) <= Bound(c, brokerTimeout)
  {
    hide RetryDelay;
  }
}
