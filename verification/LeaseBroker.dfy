/** The accelerator's lease table and idle clock
    (`AcceleratorManager` in services/accelerator/src/openclaw_accelerator/broker.py).

    Every call holds the manager's lock, so it is one atomic event.  Clock readings, tokens, the
    standby policy's answer and the hardware's answers are part of the event.
 */
module LeaseBroker {
  import opened Wrappers

  const MAX_LEASES_PER_UID := 32
  const MONITOR_FAILURE_RETRY_SEC := 10.0

  type Token = string

  /** When the table drops the lease, by the monotonic clock, and the end its owner is told, by the wall clock. */
  datatype Lease = Lease(owner: int, expires: real, told: real)

  datatype Condition = Unknown | Ready | Off | Degraded | Attaching | Detaching | Fault

  datatype Config = Config(
    idleTimeout: real, startupGuard: real, defaultTtl: real, maxTtl: real, automatic: bool, scheduled: bool)

  datatype State = State(
    leases: map<Token, Lease>, startedAt: real, idleSince: real, nextWake: real,
    condition: Condition, failed: bool, verified: bool)

  datatype Probe = Probe(ready: bool, off: bool)

  datatype PowerOff = Busy | Broken | Done

  /** `at` is the monotonic clock at the beginning, `epoch` the wall clock when the end of the lease is told,
      which for an acquisition is after `ensure_ready`.  `None` for a probe that raises; `ensured` whether
      `ensure_ready` succeeds. */
  datatype Event =
    | Acquire(at: real, owner: int, ttl: Option<real>, token: Token, probe: Option<Probe>, ensured: bool, epoch: real)
    | Renew(at: real, owner: int, token: Token, ttl: Option<real>, epoch: real)
    | Release(at: real, owner: int, token: Token)
    | Status(at: real, probe: Option<Probe>)
    | PolicyCall(at: real)           // subscribing to the policy and renewing it reap the table too
    | Tick(at: real, unload: bool, probe: Option<Probe>, ensured: bool, powerOff: PowerOff)
    | MonitorFault(at: real)

  function Start(now: real): State { State(map[], now, now, now, Unknown, false, false) }

  // ----- the specification of the methods

  function Live(leases: map<Token, Lease>, now: real): map<Token, Lease> {
    map t | t in leases && leases[t].expires > now :: leases[t]
  }

  function Reap(s: State, now: real): State {
    var live := Live(s.leases, now);
    s.(leases := live, idleSince := if live != s.leases && live == map[] then now else s.idleSince)
  }

  function Ttl(config: Config, asked: Option<real>): Option<real> {
    var ttl := if asked.Some? then asked.value else config.defaultTtl;
    if 5.0 <= ttl <= config.maxTtl then Some(ttl) else None
  }

  function OwnedBy(leases: map<Token, Lease>, owner: int): set<Token> {
    set t | t in leases && leases[t].owner == owner
  }

  function AcquireSpec(config: Config, s: State, e: Event): State
    requires e.Acquire?
  {
    var ttl := Ttl(config, e.ttl);
    if ttl.None? then s
    else
      var r := Reap(s, e.at);
      if |OwnedBy(r.leases, e.owner)| >= MAX_LEASES_PER_UID || e.probe.None? then r
      else if (!e.probe.value.ready || !r.verified) && !e.ensured then
        r.(condition := Fault, verified := false, failed := true)
      else
        r.(condition := Ready, verified := true, failed := false,
           leases := r.leases[e.token := Lease(e.owner, e.at + ttl.value, e.epoch + ttl.value)])
  }

  function RenewSpec(config: Config, s: State, e: Event): State
    requires e.Renew?
  {
    var ttl := Ttl(config, e.ttl);
    if ttl.None? then s
    else
      var r := Reap(s, e.at);
      if e.token !in r.leases || r.leases[e.token].owner != e.owner then r
      else r.(leases := r.leases[e.token := Lease(e.owner, e.at + ttl.value, e.epoch + ttl.value)])
  }

  function ReleaseSpec(s: State, e: Event): State
    requires e.Release?
  {
    if e.token !in s.leases || s.leases[e.token].owner != e.owner then s
    else
      var left := s.leases - {e.token};
      s.(leases := left, idleSince := if left == map[] then e.at else s.idleSince)
  }

  function StatusSpec(s: State, e: Event): State
    requires e.Status?
  {
    var r := Reap(s, e.at);
    if e.probe.None? then r
    else if e.probe.value.ready then
      r.(condition := if r.verified then Ready else if r.failed then Fault else Degraded)
    else r.(condition := if e.probe.value.off then Off else Degraded, verified := false)
  }

  /** The tick gets as far as calling `power_off`. */
  predicate CallsPowerOff(config: Config, s: State, e: Event) {
    && e.Tick?
    && var r := Reap(s, e.at);
       && e.unload && config.automatic && r.leases == map[]
       && e.at - r.startedAt >= config.startupGuard
       && e.at - r.idleSince >= config.idleTimeout
       && e.probe.Some? && !e.probe.value.off && e.probe.value.ready
  }

  function WakeSpec(config: Config, r: State, e: Event): State
    requires e.Tick?
  {
    if !config.automatic || !config.scheduled then r
    else if r.verified && (e.probe.None? || e.probe.value.ready) then r
    else if e.at < r.nextWake then r
    else if !e.ensured then
      r.(condition := Fault, verified := false, failed := true, nextWake := e.at + MONITOR_FAILURE_RETRY_SEC)
    else r.(condition := Ready, verified := true, failed := false)
  }

  function TickSpec(config: Config, s: State, e: Event): State
    requires e.Tick?
  {
    var r := Reap(s, e.at);
    if !e.unload then WakeSpec(config, r, e)
    else if CallsPowerOff(config, s, e) then
      match e.powerOff
      case Busy => r.(condition := Ready, failed := true, idleSince := e.at)
      case Broken => r.(condition := Fault, failed := true, verified := false, idleSince := e.at)
      case Done => r.(condition := Off, failed := false, verified := false)
    else if !config.automatic || r.leases != map[] || e.at - r.startedAt < config.startupGuard ||
            e.at - r.idleSince < config.idleTimeout || e.probe.None? then r
    else r.(condition := if e.probe.value.off then Off else Degraded, verified := false)
  }

  function Step(config: Config, s: State, e: Event): State {
    match e
    case Acquire(_, _, _, _, _, _, _) => AcquireSpec(config, s, e)
    case Renew(_, _, _, _, _) => RenewSpec(config, s, e)
    case Release(_, _, _) => ReleaseSpec(s, e)
    case Status(_, _) => StatusSpec(s, e)
    case PolicyCall(at) => Reap(s, at)
    case Tick(_, _, _, _, _) => TickSpec(config, s, e)
    case MonitorFault(_) => s.(condition := Fault, verified := false, failed := true)
  }

  function Run(config: Config, s: State, events: seq<Event>): State {
    if events == [] then s
    else Step(config, Run(config, s, events[..|events| - 1]), events[|events| - 1])
  }

  predicate InOrder(start: real, events: seq<Event>) {
    && (forall i :: 0 <= i < |events| ==> start <= events[i].at)
    && (forall i, j :: 0 <= i < j < |events| ==> events[i].at <= events[j].at)
  }

  // ----- the idle clock

  predicate FailsToPowerOff(config: Config, s: State, e: Event) {
    CallsPowerOff(config, s, e) && !e.powerOff.Done?
  }

  lemma StepMovesIdleClock(config: Config, s: State, e: Event)
    requires s.idleSince <= e.at
    ensures var t := Step(config, s, e);
            && s.idleSince <= t.idleSince <= e.at
            && t.startedAt == s.startedAt
            && (s.leases != map[] && t.leases == map[] ==> t.idleSince == e.at)
            && (FailsToPowerOff(config, s, e) ==> t.idleSince == e.at)
  {
  }

  /** A lease is in the table up to event `i`. */
  predicate HeldUntil(config: Config, s: State, events: seq<Event>, i: nat)
    requires i < |events|
  {
    Run(config, s, events[..i]).leases != map[]
  }

  predicate FailedAt(config: Config, s: State, events: seq<Event>, i: nat)
    requires i < |events|
  {
    FailsToPowerOff(config, Run(config, s, events[..i]), events[i])
  }

  lemma SamePast(config: Config, s: State, events: seq<Event>, n: nat, i: nat)
    requires i < n <= |events|
    ensures HeldUntil(config, s, events[..n], i) == HeldUntil(config, s, events, i)
    ensures FailedAt(config, s, events[..n], i) == FailedAt(config, s, events, i)
  {
    assert events[..n][..i] == events[..i];
  }

  /** While the table is empty, the idle clock is no earlier than the end of any time in which a
      lease was held; nor is it ever earlier than a failed attempt to power off. */
  lemma {:induction false} IdleClockFollowsLeases(config: Config, start: real, events: seq<Event>, i: nat)
    requires InOrder(start, events) && i < |events|
    ensures var s := Run(config, Start(start), events);
            && s.startedAt == start <= s.idleSince <= events[|events| - 1].at
            && (s.leases == map[] && HeldUntil(config, Start(start), events, i) ==> events[i].at <= s.idleSince)
            && (FailedAt(config, Start(start), events, i) ==> events[i].at <= s.idleSince)
  {
    var n := |events| - 1;
    var before := events[..n];
    var r := Run(config, Start(start), before);
    if n > 0 {
      var j := if i < n then i else 0;
      IdleClockFollowsLeases(config, start, before, j);
      SamePast(config, Start(start), events, n, j);
    }
    StepMovesIdleClock(config, r, events[n]);
  }

  /** `power_off` is called only with an empty table, at least the idle timeout after the last
      instant at which any lease was in it (the event that emptied it), after the startup guard, on a
      policy that requests unloading, and at least the idle timeout after an attempt that failed. */
  lemma {:induction false} PowerOffIsSafe(config: Config, start: real, events: seq<Event>, tick: Event)
    requires InOrder(start, events + [tick]) && config.idleTimeout > 0.0
    requires CallsPowerOff(config, Run(config, Start(start), events), tick)
    ensures tick.unload && config.automatic && tick.at - start >= config.startupGuard
    ensures Run(config, Start(start), events).leases == map[]
    ensures forall i :: 0 <= i < |events| && HeldUntil(config, Start(start), events, i) ==>
              events[i].at + config.idleTimeout <= tick.at
    ensures forall i :: 0 <= i < |events| && FailedAt(config, Start(start), events, i) ==>
              events[i].at + config.idleTimeout <= tick.at
  {
    assert forall i :: 0 <= i < |events| ==> (events + [tick])[i] == events[i];
    assert (events + [tick])[|events|] == tick;
    if events != [] { IdleClockFollowsLeases(config, start, events, 0); }
    forall i | 0 <= i < |events|
      ensures HeldUntil(config, Start(start), events, i) || FailedAt(config, Start(start), events, i) ==>
                events[i].at + config.idleTimeout <= tick.at
    {
      IdleClockFollowsLeases(config, start, events, i);
    }
  }

  // ----- a live lease

  predicate Holds(s: State, token: Token, owner: int, until: real) {
    token in s.leases && s.leases[token].owner == owner && s.leases[token].expires >= until
  }

  /** The owner neither gives the lease back nor shortens it, and its token is not drawn again.  What other
      peers try with the token is refused anyway. */
  predicate Spares(config: Config, e: Event, token: Token, owner: int, until: real) {
    && !(e.Release? && e.token == token && e.owner == owner)
    && !(e.Acquire? && e.token == token)
    && (e.Renew? && e.token == token && e.owner == owner && Ttl(config, e.ttl).Some? ==>
          e.at + Ttl(config, e.ttl).value >= until)
  }

  lemma StepKeepsLease(config: Config, s: State, e: Event, token: Token, owner: int, until: real)
    requires Holds(s, token, owner, until) && Spares(config, e, token, owner, until) && e.at < until
    ensures Holds(Step(config, s, e), token, owner, until)
    ensures !CallsPowerOff(config, s, e)
  {
    assert token in Live(s.leases, e.at);
    assert Reap(s, e.at).leases[token] == s.leases[token];
  }

  /** A lease that its owner does not give back stays in the table for the whole time it was granted, and
      keeps the accelerator on for that time. */
  lemma {:induction false} LiveLeaseBlocksPowerOff(
    config: Config, s: State, events: seq<Event>, token: Token, owner: int, until: real)
    requires Holds(s, token, owner, until)
    requires forall e :: e in events ==> Spares(config, e, token, owner, until) && e.at < until
    ensures Holds(Run(config, s, events), token, owner, until)
    ensures forall i :: 0 <= i < |events| ==> !CallsPowerOff(config, Run(config, s, events[..i]), events[i])
  {
    if events != [] {
      var n := |events| - 1;
      var before := events[..n];
      LiveLeaseBlocksPowerOff(config, s, before, token, owner, until);
      assert events[n] in events;
      StepKeepsLease(config, Run(config, s, before), events[n], token, owner, until);
      forall i | 0 <= i < |events|
        ensures !CallsPowerOff(config, Run(config, s, events[..i]), events[i])
      {
        if i < n { assert events[..i] == before[..i] && events[i] == before[i]; }
      }
    }
  }

  /** The lease is held, or its time is over and the table has not been empty since before that, nor since
      before `from`. */
  ghost predicate HeldOrLater(s: State, clock: real, from: real, token: Token, owner: int, until: real) {
    && s.idleSince <= clock && from <= clock
    && (Holds(s, token, owner, until) ||
        (until <= clock && (s.leases == map[] ==> s.idleSince >= until && s.idleSince >= from)))
  }

  lemma StepIsHeldOrLater(config: Config, s: State, clock: real, from: real, e: Event,
                          token: Token, owner: int, until: real)
    requires HeldOrLater(s, clock, from, token, owner, until) && clock <= e.at
    requires Spares(config, e, token, owner, until)
    ensures HeldOrLater(Step(config, s, e), e.at, from, token, owner, until)
    ensures config.idleTimeout > 0.0 && CallsPowerOff(config, s, e) ==>
              e.at >= until + config.idleTimeout && e.at >= from + config.idleTimeout
  {
    StepMovesIdleClock(config, s, e);
    if e.at < until { StepKeepsLease(config, s, e, token, owner, until); }
  }

  /** Nor is the power turned off before the idle timeout has passed since then, or since `now`. */
  lemma {:induction false} PowerOutlastsLease(
    config: Config, s: State, now: real, events: seq<Event>, token: Token, owner: int, until: real)
    requires Holds(s, token, owner, until) && s.idleSince <= now && InOrder(now, events) && config.idleTimeout > 0.0
    requires forall e :: e in events ==> Spares(config, e, token, owner, until)
    ensures HeldOrLater(Run(config, s, events), if events == [] then now else events[|events| - 1].at, now,
                        token, owner, until)
    ensures forall i :: 0 <= i < |events| && CallsPowerOff(config, Run(config, s, events[..i]), events[i]) ==>
              events[i].at >= until + config.idleTimeout && events[i].at >= now + config.idleTimeout
  {
    if events != [] {
      var n := |events| - 1;
      var before := events[..n];
      PowerOutlastsLease(config, s, now, before, token, owner, until);
      assert events[n] in events;
      StepIsHeldOrLater(config, Run(config, s, before), if n == 0 then now else before[n - 1].at, now,
                        events[n], token, owner, until);
      forall i | 0 <= i < |events| && CallsPowerOff(config, Run(config, s, events[..i]), events[i])
        ensures events[i].at >= until + config.idleTimeout && events[i].at >= now + config.idleTimeout
      {
        if i < n { assert events[..i] == before[..i] && events[i] == before[i]; }
      }
    }
  }

  predicate Grants(config: Config, s: State, e: Event) {
    e.Acquire? && e.token !in s.leases && e.token in Step(config, s, e).leases
  }

  /** What a granted lease promises: the token is held for its time to live from the beginning of the call
      on ready hardware.  The end its owner is told is later by the time between the two clock readings,
      `took`, in which `ensure_ready` runs. */
  lemma GrantIsHeld(config: Config, s: State, e: Event, ahead: real, took: real)
    requires Grants(config, s, e) && e.epoch == e.at + took + ahead
    ensures var t := Step(config, s, e);
            && Ttl(config, e.ttl).Some?
            && Holds(t, e.token, e.owner, e.at + Ttl(config, e.ttl).value)
            && t.leases[e.token].told - ahead == t.leases[e.token].expires + took
            && t.verified && t.condition == Ready
            && |OwnedBy(t.leases, e.owner)| <= MAX_LEASES_PER_UID
  {
    var t, r := Step(config, s, e), Reap(s, e.at);
    assert OwnedBy(t.leases, e.owner) == OwnedBy(r.leases, e.owner) + {e.token};
  }

  /** After the grant the power is turned off before the end that its owner was told, although the owner
      neither released nor shortened the lease. */
  ghost predicate LosesPower(config: Config, s: State, e: Event, ahead: real, took: real, events: seq<Event>)
    requires Grants(config, s, e) && Ttl(config, e.ttl).Some?
  {
    && events != [] && InOrder(e.at + took, events)
    && (forall x :: x in events ==> Spares(config, x, e.token, e.owner, e.at + Ttl(config, e.ttl).value))
    && var n := |events| - 1;
       && events[n].at + ahead < Step(config, s, e).leases[e.token].told
       && CallsPowerOff(config, Run(config, Step(config, s, e), events[..n]), events[n])
  }

  function UnloadTick(at: real): Event { Tick(at, true, Some(Probe(true, false)), false, Done) }

  /** Alone on its automatic manager, with the startup guard over when it is first idle. */
  predicate Alone(config: Config, s: State, e: Event)
    requires e.Acquire? && Ttl(config, e.ttl).Some?
  {
    && config.automatic && config.idleTimeout > 0.0 && Reap(s, e.at).leases == map[] && s.idleSince <= e.at
    && e.at + Ttl(config, e.ttl).value + config.idleTimeout - s.startedAt >= config.startupGuard
  }

  lemma SlowGrantLosesPower(config: Config, s: State, e: Event, ahead: real, took: real)
    requires Grants(config, s, e) && Ttl(config, e.ttl).Some? && e.epoch == e.at + took + ahead
    requires Alone(config, s, e) && took > config.idleTimeout && Ttl(config, e.ttl).value > config.idleTimeout
    ensures exists events: seq<Event> :: LosesPower(config, s, e, ahead, took, events)
  {
    var until := e.at + Ttl(config, e.ttl).value;
    var idle := if until > e.at + took then until else e.at + took;
    var t := Step(config, s, e);
    var first, second := UnloadTick(idle), UnloadTick(idle + config.idleTimeout);
    assert t.leases == map[e.token := Lease(e.owner, until, e.epoch + Ttl(config, e.ttl).value)];
    assert Reap(t, idle).leases == map[] && Reap(t, idle).idleSince == idle;
    var u := Step(config, t, first);
    assert u.leases == map[] && u.idleSince == idle && u.startedAt == s.startedAt;
    assert Reap(u, second.at).leases == map[];
    var events := [first, second];
    assert events[..1] == [first] && [first][..0] == [];
    assert Run(config, t, [first]) == Step(config, Run(config, t, []), first) == u;
    assert LosesPower(config, s, e, ahead, took, events);
  }

  /** The only owner of a lease can lose the power before the end it was told exactly when the idle timeout
      is less than both the time `ensure_ready` took and the lease's time to live. */
  lemma LosesPowerIff(config: Config, s: State, e: Event, ahead: real, took: real)
    requires Grants(config, s, e) && Ttl(config, e.ttl).Some? && e.epoch == e.at + took + ahead
    requires Alone(config, s, e) && took >= 0.0
    ensures (exists events: seq<Event> :: LosesPower(config, s, e, ahead, took, events)) <==>
            config.idleTimeout < took && config.idleTimeout < Ttl(config, e.ttl).value
  {
    if config.idleTimeout < took && config.idleTimeout < Ttl(config, e.ttl).value {
      SlowGrantLosesPower(config, s, e, ahead, took);
    } else if exists events: seq<Event> :: LosesPower(config, s, e, ahead, took, events) {
      var events: seq<Event> :| LosesPower(config, s, e, ahead, took, events);
      GrantIsHeld(config, s, e, ahead, took);
      StepMovesIdleClock(config, s, e);
      PowerOutlastsLease(config, Step(config, s, e), e.at + took, events, e.token, e.owner,
                         e.at + Ttl(config, e.ttl).value);
      assert false;
    }
  }

  // ----- the manager itself

  class AcceleratorManager {
    const config: Config
    const startedAt: real
    var leases: map<Token, Lease>
    var idleSince: real
    var nextWake: real
    var condition: Condition
    var failed: bool
    var verified: bool

    ghost function Now(): State
      reads this
    {
      State(leases, startedAt, idleSince, nextWake, condition, failed, verified)
    }

    constructor (config: Config, now: real)
      ensures Now() == Start(now) && this.config == config
    {
      this.config, startedAt := config, now;
      leases, idleSince, nextWake := map[], now, now;
      condition, failed, verified := Unknown, false, false;
    }

    method ReapExpired(now: real)
      modifies this`leases, this`idleSince
      ensures Now() == Reap(old(Now()), now)
    {
      var expired := set t | t in leases && leases[t].expires <= now;
      var rest := expired;
      while rest != {}
        invariant rest <= expired
        invariant leases == old(leases) - (expired - rest) && idleSince == old(idleSince)
        decreases rest
      {
        var t :| t in rest;
        leases := leases - {t};
        rest := rest - {t};
      }
      assert leases == Live(old(leases), now);
      assert expired != {} ==> leases != old(leases) by {
        if expired != {} {
          var t :| t in expired;
          assert t in old(leases) && t !in leases;
        }
      }
      if expired != {} && leases == map[] { idleSince := now; }
    }

    method AcquireLease(e: Event) returns (granted: bool)
      requires e.Acquire?
      modifies this
      ensures Now() == Step(config, old(Now()), e)
      ensures granted ==> e.token in leases
    {
      var ttl := Ttl(config, e.ttl);
      if ttl.None? { return false; }
      ReapExpired(e.at);
      if |OwnedBy(leases, e.owner)| >= MAX_LEASES_PER_UID { return false; }
      if e.probe.None? { return false; }
      if !e.probe.value.ready || !verified {
        condition := Attaching;
        if !e.ensured {
          condition, verified, failed := Fault, false, true;
          return false;
        }
      }
      condition, verified, failed := Ready, true, false;
      leases := leases[e.token := Lease(e.owner, e.at + ttl.value, e.epoch + ttl.value)];
      return true;
    }

    method RenewLease(e: Event) returns (renewed: bool)
      requires e.Renew?
      modifies this
      ensures Now() == Step(config, old(Now()), e)
      ensures renewed ==>
                Ttl(config, e.ttl).Some? && Holds(Now(), e.token, e.owner, e.at + Ttl(config, e.ttl).value)
    {
      var ttl := Ttl(config, e.ttl);
      if ttl.None? { return false; }
      ReapExpired(e.at);
      if e.token !in leases || leases[e.token].owner != e.owner { return false; }
      leases := leases[e.token := Lease(e.owner, e.at + ttl.value, e.epoch + ttl.value)];
      return true;
    }

    method ReleaseLease(e: Event) returns (released: bool)
      requires e.Release?
      modifies this
      ensures Now() == Step(config, old(Now()), e)
      ensures released <==> e.token in old(leases) && old(leases)[e.token].owner == e.owner
    {
      if e.token !in leases || leases[e.token].owner != e.owner { return false; }
      leases := leases - {e.token};
      if leases == map[] { idleSince := e.at; }
      return true;
    }

    method ReportStatus(e: Event) returns (held: nat)
      requires e.Status?
      modifies this
      ensures Now() == Step(config, old(Now()), e)
      ensures held == |leases|
    {
      ReapExpired(e.at);
      held := |leases|;
      if e.probe.None? { return; }
      if e.probe.value.ready {
        condition := if verified then Ready else if failed then Fault else Degraded;
      } else {
        condition := if e.probe.value.off then Off else Degraded;
        verified := false;
      }
    }

    method TickOnce(e: Event) returns (calledPowerOff: bool)
      requires e.Tick?
      modifies this
      ensures Now() == Step(config, old(Now()), e)
      ensures calledPowerOff <==> CallsPowerOff(config, old(Now()), e)
    {
      ReapExpired(e.at);
      calledPowerOff := false;
      if !e.unload {
        if config.automatic && config.scheduled &&
           (!verified || (e.probe.Some? && !e.probe.value.ready)) && e.at >= nextWake {
          if !e.ensured {
            condition, verified, failed := Fault, false, true;
            nextWake := e.at + MONITOR_FAILURE_RETRY_SEC;
          } else {
            condition, verified, failed := Ready, true, false;
          }
        }
        return;
      }
      if !config.automatic || leases != map[] { return; }
      if e.at - startedAt < config.startupGuard { return; }
      if e.at - idleSince < config.idleTimeout { return; }
      if e.probe.None? { return; }
      if e.probe.value.off {
        condition, verified := Off, false;
        return;
      }
      if !e.probe.value.ready {
        condition, verified := Degraded, false;
        return;
      }
      condition := Detaching;
      calledPowerOff := true;
      match e.powerOff {
        case Busy => condition, failed, idleSince := Ready, true, e.at;
        case Broken => condition, failed, verified, idleSince := Fault, true, false, e.at;
        case Done => condition, failed, verified := Off, false, false;
      }
    }
  }
}
