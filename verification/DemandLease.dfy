/** A lease kept while work is active or the service is warm
    (services/accelerator/src/openclaw_accelerator/demand_lease.py).

    Every section under the condition is one atomic step; starting a keeper, quiescing and closing
    the keeper happen outside it and are steps of their own.  A wait that goes round again changes
    nothing and is not a step.
 */
module DemandLease {
  import opened Wrappers

  type ThreadId = nat
  type Keeper = nat

  datatype Transition = Idle | Acquiring | Ready | Draining

  /** Where a thread is between two critical sections. */
  datatype Place =
    | Starting | Started(keeper: Keeper) | Abandoning(keeper: Keeper)     // acquire
    | Holding                                                             // an activity
    | Quiescing(keeper: Keeper) | Closing(keeper: Keeper) | Closed(keeper: Keeper)  // drain_if_idle
    | QuiescingLast(keeper: Keeper) | ClosingLast(keeper: Keeper) | Ending // close

  /** The fields, the threads, the keepers that are started, and the next keeper to be made. */
  datatype State = State(
    keeper: Option<Keeper>, transition: Transition, active: int, idleSince: Option<real>, closing: bool,
    threads: map<ThreadId, Place>, running: set<Keeper>, made: nat)

  function Start(): State { State(None, Idle, 0, None, false, map[], {}, 0) }

  datatype Step =
    | Acquire(t: ThreadId, healthy: bool)
    | StartKeeper(t: ThreadId, ok: bool)
    | Publish(t: ThreadId)
    | Abandon(t: ThreadId)
    | Release(t: ThreadId, now: real)
    | TryDrain(t: ThreadId, healthy: bool, unload: bool, now: real)
    | Quiesce(t: ThreadId, ok: bool, now: real)
    | CloseKeeper(t: ThreadId)
    | FinishDrain(t: ThreadId)
    | BeginClose(t: ThreadId)
    | QuiesceLast(t: ThreadId)
    | CloseLast(t: ThreadId)
    | FinishClose(t: ThreadId)

  function At(s: State, t: ThreadId, place: Place): State { s.(threads := s.threads[t := place]) }

  function Gone(s: State, t: ThreadId): State { s.(threads := s.threads - {t}) }

  // ----- critical sections

  /** A thread that is refused, or has to wait, stays outside. */
  function AcquireSpec(s: State, t: ThreadId, healthy: bool): State {
    if s.closing || s.transition == Acquiring || s.transition == Draining then s
    else if s.keeper.Some? then
      if !healthy then s else At(s, t, Holding).(active := s.active + 1, idleSince := None)
    else At(s, t, Starting).(transition := Acquiring)
  }

  function PublishSpec(s: State, t: ThreadId, keeper: Keeper): State {
    if s.closing then At(s, t, Abandoning(keeper)).(transition := Draining)
    else At(s, t, Holding).(keeper := Some(keeper), active := 1, idleSince := None, transition := Ready)
  }

  function ReleaseSpec(s: State, t: ThreadId, now: real): State {
    if s.active <= 0 then Gone(s, t)          // raises: unbalanced release
    else Gone(s, t).(active := s.active - 1, idleSince := if s.active == 1 then Some(now) else s.idleSince)
  }

  predicate MayDrain(s: State, healthy: bool, unload: bool, now: real, idleRelease: real) {
    && !s.closing && s.keeper.Some? && s.transition == Ready && s.active == 0 && s.idleSince.Some?
    && (!healthy || now - s.idleSince.value >= idleRelease)
    && unload
  }

  function FinishDrainSpec(s: State, t: ThreadId, keeper: Keeper): State {
    Gone(s, t).(keeper := if s.keeper == Some(keeper) then None else s.keeper,
                idleSince := None, transition := Idle)
  }

  function BeginCloseSpec(s: State, t: ThreadId): State {
    if s.keeper.Some?
    then At(s, t, QuiescingLast(s.keeper.value)).(closing := true, transition := Draining)
    else At(s, t, Ending).(closing := true)
  }

  predicate Enabled(s: State, step: Step) {
    match step
    case Acquire(t, _) => t !in s.threads
    case StartKeeper(t, _) => t in s.threads && s.threads[t] == Starting
    case Publish(t) => t in s.threads && s.threads[t].Started?
    case Abandon(t) => t in s.threads && s.threads[t].Abandoning?
    case Release(t, _) => t in s.threads && s.threads[t] == Holding
    case TryDrain(t, _, _, _) => t !in s.threads
    case Quiesce(t, _, _) => t in s.threads && s.threads[t].Quiescing?
    case CloseKeeper(t) => t in s.threads && s.threads[t].Closing?
    case FinishDrain(t) => t in s.threads && s.threads[t].Closed?
    case BeginClose(t) => t !in s.threads
    case QuiesceLast(t) => t in s.threads && s.threads[t].QuiescingLast?
    case CloseLast(t) => t in s.threads && s.threads[t].ClosingLast?
    case FinishClose(t) => t in s.threads && s.threads[t] == Ending
  }

  function Apply(s: State, step: Step, idleRelease: real): State
    requires Enabled(s, step)
  {
    match step
    case Acquire(t, healthy) => AcquireSpec(s, t, healthy)
    case StartKeeper(t, ok) =>
      if ok then At(s, t, Started(s.made)).(running := s.running + {s.made}, made := s.made + 1)
      else Gone(s, t).(transition := Idle)
    case Publish(t) => PublishSpec(s, t, s.threads[t].keeper)
    case Abandon(t) => Gone(s, t).(running := s.running - {s.threads[t].keeper})
    case Release(t, now) => ReleaseSpec(s, t, now)
    case TryDrain(t, healthy, unload, now) =>
      if MayDrain(s, healthy, unload, now, idleRelease)
      then At(s, t, Quiescing(s.keeper.value)).(transition := Draining) else s
    case Quiesce(t, ok, now) =>
      if ok then At(s, t, Closing(s.threads[t].keeper))
      else Gone(s, t).(transition := Ready, idleSince := Some(now))
    case CloseKeeper(t) =>
      At(s, t, Closed(s.threads[t].keeper)).(running := s.running - {s.threads[t].keeper})
    case FinishDrain(t) => FinishDrainSpec(s, t, s.threads[t].keeper)
    case BeginClose(t) => BeginCloseSpec(s, t)
    case QuiesceLast(t) => At(s, t, ClosingLast(s.threads[t].keeper))
    case CloseLast(t) => At(s, t, Ending).(running := s.running - {s.threads[t].keeper})
    case FinishClose(t) => Gone(s, t).(keeper := None, active := 0, idleSince := None, transition := Idle)
  }

  predicate Legal(s: State, steps: seq<Step>, idleRelease: real)
    decreases |steps|
  {
    steps == [] || (Enabled(s, steps[0]) && Legal(Apply(s, steps[0], idleRelease), steps[1..], idleRelease))
  }

  function Run(s: State, steps: seq<Step>, idleRelease: real): State
    requires Legal(s, steps, idleRelease)
    decreases |steps|
  {
    if steps == [] then s else Run(Apply(s, steps[0], idleRelease), steps[1..], idleRelease)
  }

  // ----- before close: what every interleaving keeps

  function Holders(s: State): set<ThreadId> { set t | t in s.threads && s.threads[t] == Holding }

  predicate IsMover(s: State, t: ThreadId) { t in s.threads && s.threads[t] != Holding }

  /** What holds while a thread is at `place`, in the middle of a transition. */
  predicate Midway(s: State, place: Place) {
    match place
    case Starting => s.transition == Acquiring && s.running == {}
    case Started(k) => s.transition == Acquiring && s.running == {k}
    case Quiescing(k) => s.transition == Draining && s.keeper == Some(k) && s.running == {k}
    case Closing(k) => s.transition == Draining && s.keeper == Some(k) && s.running == {k}
    case Closed(k) => s.transition == Draining && s.keeper == Some(k) && s.running == {}
    case _ => false
  }

  /** Each transition belongs to the one thread that is in the middle of it. */
  ghost predicate Owned(s: State) {
    && !s.closing
    && (forall t, u :: IsMover(s, t) && IsMover(s, u) ==> t == u)
    && (s.transition == Acquiring || s.transition == Draining ==> exists t :: IsMover(s, t))
    && (forall t :: IsMover(s, t) ==> Midway(s, s.threads[t]))
  }

  ghost predicate Balanced(s: State) {
    && s.active == |Holders(s)|
    && (s.keeper.Some? <==> s.transition == Ready || s.transition == Draining)
    && (s.transition != Ready ==> s.active == 0)
    && (s.transition == Ready ==> s.running == {s.keeper.value})
    && (s.transition == Idle ==> s.running == {})
    && (s.transition == Ready && s.active == 0 ==> s.idleSince.Some?)
  }

  ghost predicate Inv(s: State) { Owned(s) && Balanced(s) }

  predicate BeforeClose(steps: seq<Step>) { forall step :: step in steps ==> !step.BeginClose? }

  lemma OneMore(s: State, t: State, x: ThreadId)
    requires x !in Holders(s) && Holders(t) == Holders(s) + {x}
    ensures |Holders(t)| == |Holders(s)| + 1
  {
  }

  lemma OneLess(s: State, t: State, x: ThreadId)
    requires x in Holders(s) && Holders(t) == Holders(s) - {x}
    ensures |Holders(t)| == |Holders(s)| - 1
  {
  }

  lemma StepMovesOneThread(s: State, step: Step, idleRelease: real, u: ThreadId)
    requires Enabled(s, step) && u != step.t
    ensures IsMover(Apply(s, step, idleRelease), u) <==> IsMover(s, u)
    ensures IsMover(s, u) ==> Apply(s, step, idleRelease).threads[u] == s.threads[u]
  {
  }

  /** The thread that takes the step, if it is then in the middle of a transition. */
  lemma {:induction false} MoverIsMidway(s: State, step: Step, idleRelease: real)
    requires Inv(s) && Enabled(s, step) && !step.BeginClose?
    requires IsMover(Apply(s, step, idleRelease), step.t)
    ensures Midway(Apply(s, step, idleRelease), Apply(s, step, idleRelease).threads[step.t])
  {
    var t := Apply(s, step, idleRelease);
    if step.t in s.threads { assert IsMover(s, step.t) && Midway(s, s.threads[step.t]); }
    if step.StartKeeper? && step.ok { assert t.running == {s.made}; }
    if step.CloseKeeper? { assert t.running == {}; }
  }

  /** Nobody else changes what the thread in the middle of a transition relies on. */
  lemma OthersStayMidway(s: State, step: Step, idleRelease: real, u: ThreadId)
    requires Inv(s) && Enabled(s, step) && !step.BeginClose? && IsMover(s, u) && u != step.t
    ensures Midway(Apply(s, step, idleRelease), s.threads[u])
    ensures !IsMover(Apply(s, step, idleRelease), step.t)
  {
    assert Midway(s, s.threads[u]) && !IsMover(s, step.t);
  }

  /** A step that is not by the mover neither starts nor ends a transition, unless it makes one. */
  lemma TransitionNeedsMover(s: State, step: Step, idleRelease: real)
    requires Inv(s) && Enabled(s, step) && !step.BeginClose?
    requires !IsMover(Apply(s, step, idleRelease), step.t)
    ensures var t := Apply(s, step, idleRelease);
            t.transition == Acquiring || t.transition == Draining ==>
              s.transition == t.transition && !IsMover(s, step.t)
  {
    if IsMover(s, step.t) { assert Midway(s, s.threads[step.t]); }
  }

  lemma TransitionKeepsMover(s: State, step: Step, idleRelease: real)
    requires Inv(s) && Enabled(s, step) && !step.BeginClose?
    requires Apply(s, step, idleRelease).transition in {Acquiring, Draining}
    ensures exists u :: IsMover(Apply(s, step, idleRelease), u)
  {
    if !IsMover(Apply(s, step, idleRelease), step.t) {
      TransitionNeedsMover(s, step, idleRelease);
      var u :| IsMover(s, u);
      StepMovesOneThread(s, step, idleRelease, u);
    }
  }

  lemma MoversAreMidway(s: State, step: Step, idleRelease: real, u: ThreadId)
    requires Inv(s) && Enabled(s, step) && !step.BeginClose? && IsMover(Apply(s, step, idleRelease), u)
    ensures Midway(Apply(s, step, idleRelease), Apply(s, step, idleRelease).threads[u])
    ensures u != step.t ==> IsMover(s, u) && !IsMover(Apply(s, step, idleRelease), step.t)
  {
    if u == step.t {
      MoverIsMidway(s, step, idleRelease);
    } else {
      StepMovesOneThread(s, step, idleRelease, u);
      OthersStayMidway(s, step, idleRelease, u);
    }
  }

  lemma StepKeepsOwned(s: State, step: Step, idleRelease: real)
    requires Inv(s) && Enabled(s, step) && !step.BeginClose?
    ensures Owned(Apply(s, step, idleRelease))
  {
    var t := Apply(s, step, idleRelease);
    forall u | IsMover(t, u)
      ensures Midway(t, t.threads[u]) && (u != step.t ==> IsMover(s, u) && !IsMover(t, step.t))
    {
      MoversAreMidway(s, step, idleRelease, u);
    }
    if t.transition in {Acquiring, Draining} { TransitionKeepsMover(s, step, idleRelease); }
    NotClosing(s, step, idleRelease);
  }

  lemma NotClosing(s: State, step: Step, idleRelease: real)
    requires Enabled(s, step) && !step.BeginClose?
    ensures Apply(s, step, idleRelease).closing == s.closing
  {
  }

  lemma NobodyHolds(s: State)
    requires Balanced(s) && s.active == 0
    ensures Holders(s) == {}
  {
  }

  lemma StepKeepsBalanced(s: State, step: Step, idleRelease: real)
    requires Inv(s) && Enabled(s, step) && !step.BeginClose?
    ensures Balanced(Apply(s, step, idleRelease))
  {
    var t, x := Apply(s, step, idleRelease), step.t;
    if x in Holders(t) && x !in Holders(s) {
      assert Holders(t) == Holders(s) + {x};
      OneMore(s, t, x);
    } else if x in Holders(s) && x !in Holders(t) {
      assert Holders(t) == Holders(s) - {x};
      OneLess(s, t, x);
    } else {
      assert Holders(t) == Holders(s);
    }
    if x in s.threads && s.threads[x] != Holding { assert IsMover(s, x); }
    if x in s.threads && s.threads[x] == Holding { assert x in Holders(s); }
  }

  lemma {:induction false} RunKeepsInv(s: State, steps: seq<Step>, idleRelease: real)
    requires Inv(s) && Legal(s, steps, idleRelease) && BeforeClose(steps)
    ensures Inv(Run(s, steps, idleRelease))
    decreases |steps|
  {
    if steps != [] {
      assert steps[0] in steps;
      StepKeepsOwned(s, steps[0], idleRelease);
      StepKeepsBalanced(s, steps[0], idleRelease);
      RunKeepsInv(Apply(s, steps[0], idleRelease), steps[1..], idleRelease);
    }
  }

  predicate Drains(s: State, t: ThreadId) {
    t in s.threads && (s.threads[t].Quiescing? || s.threads[t].Closing? || s.threads[t].Closed?)
  }

  /** While a drain is on, no step of anybody, acquiring, publishing or closing, begins an activity. */
  lemma NoneBegins(s: State, t: ThreadId, step: Step, idleRelease: real)
    requires Inv(s) && Drains(s, t) && Enabled(s, step)
    ensures Holders(s) == {} && Holders(Apply(s, step, idleRelease)) == {}
  {
    assert IsMover(s, t) && Midway(s, s.threads[t]);
    NobodyHolds(s);
    if step.t in s.threads {
      assert step.t !in Holders(s);
      assert IsMover(s, step.t);
    }
    var u := Apply(s, step, idleRelease);
    assert step.t in u.threads ==> u.threads[step.t] != Holding;
  }

  /** Before `close`, in every interleaving: while anybody quiesces or closes the keeper no activity
      exists and no step begins one, at most one keeper is running, a keeper is held exactly while ready
      or draining, activities are counted exactly, and no release is unbalanced. */
  lemma DrainsOnlyWhenIdle(steps: seq<Step>, idleRelease: real, s: State)
    requires Legal(Start(), steps, idleRelease) && BeforeClose(steps)
    requires s == Run(Start(), steps, idleRelease)
    ensures forall t, step :: Drains(s, t) && Enabled(s, step) ==>
              Holders(s) == {} && Holders(Apply(s, step, idleRelease)) == {}
    ensures forall t, h, healthy :: Drains(s, t) ==> AcquireSpec(s, h, healthy) == s
    ensures |s.running| <= 1
    ensures s.keeper.Some? <==> s.transition == Ready || s.transition == Draining
    ensures s.active == |Holders(s)|
    ensures forall t :: t in Holders(s) ==> s.active > 0 && s.transition == Ready
  {
    RunKeepsInv(Start(), steps, idleRelease);
    forall t | t in s.threads && s.threads[t] != Holding ensures IsMover(s, t) {}
    forall t, step | Drains(s, t) && Enabled(s, step)
      ensures Holders(s) == {} && Holders(Apply(s, step, idleRelease)) == {}
    {
      NoneBegins(s, t, step, idleRelease);
    }
    if s.active == 0 { NobodyHolds(s); }
    if s.transition == Acquiring || s.transition == Draining { var t :| IsMover(s, t); }
  }

  // ----- close

  /** From the moment `close` begins nobody enters. */
  lemma {:induction false} ClosingAdmitsNobody(s: State, steps: seq<Step>, idleRelease: real)
    requires s.closing && Legal(s, steps, idleRelease)
    ensures Run(s, steps, idleRelease).closing && Holders(Run(s, steps, idleRelease)) <= Holders(s)
    decreases |steps|
  {
    if steps != [] { ClosingAdmitsNobody(Apply(s, steps[0], idleRelease), steps[1..], idleRelease); }
  }

  predicate QuiescesUnderActivity(s: State, t: ThreadId) {
    t in s.threads && s.threads[t].QuiescingLast? && Holders(s) != {}
  }

  /** `close` does not wait for activities: it goes on to quiesce under a running one exactly when
      one is running as it begins. */
  lemma CloseQuiescesUnderActivityIff(s: State, t: ThreadId)
    requires Inv(s) && t !in s.threads
    ensures QuiescesUnderActivity(BeginCloseSpec(s, t), t) <==> s.active > 0
  {
    assert Holders(BeginCloseSpec(s, t)) == Holders(s);
    if s.active == 0 { NobodyHolds(s); }
  }

  /** It also forgets them, so the release of an activity that outlives it is refused as unbalanced. */
  lemma CloseForgetsActivities(s: State, t: ThreadId, h: ThreadId, now: real, idleRelease: real)
    requires Inv(s) && t !in s.threads && h in Holders(s)
    ensures var s1 := Apply(s, BeginClose(t), idleRelease);
            && Enabled(s1, QuiesceLast(t))
            && var s2 := Apply(s1, QuiesceLast(t), idleRelease);
               && Enabled(s2, CloseLast(t))
               && var s3 := Apply(s2, CloseLast(t), idleRelease);
                  && Enabled(s3, FinishClose(t))
                  && var s4 := Apply(s3, FinishClose(t), idleRelease);
                     h in Holders(s4) && s4.active == 0 && ReleaseSpec(s4, h, now) == Gone(s4, h)
  {
    assert |Holders(s)| > 0;
  }

  /** An ordinary run from the start gets to such a state: one thread starts the keeper and is active as
      another one closes. */
  lemma CloseMayFindActivity(idleRelease: real)
    ensures var steps := [Acquire(0, true), StartKeeper(0, true), Publish(0)];
            && Legal(Start(), steps, idleRelease) && BeforeClose(steps)
            && var s := Run(Start(), steps, idleRelease);
               s.active == 1 && 0 in Holders(s) && 1 !in s.threads && QuiescesUnderActivity(BeginCloseSpec(s, 1), 1)
  {
    var a, b, c := Acquire(0, true), StartKeeper(0, true), Publish(0);
    assert [a, b, c][1..] == [b, c] && [b, c][1..] == [c] && [c][1..] == [];
    var s1 := Apply(Start(), a, idleRelease);
    var s2 := Apply(s1, b, idleRelease);
    assert Legal(s2, [c], idleRelease) && Legal(s1, [b, c], idleRelease);
    var s3 := Apply(s2, c, idleRelease);
    assert Run(s1, [b, c], idleRelease) == Run(s2, [c], idleRelease) == s3;
    assert 0 in Holders(BeginCloseSpec(s3, 1));
  }

  // ----- the lease itself

  class AcceleratorDemandLease {
    const idleRelease: real
    var keeper: Option<Keeper>
    var transition: Transition
    var active: int
    var idleSince: Option<real>
    var closing: bool
    ghost var threads: map<ThreadId, Place>
    ghost var running: set<Keeper>
    ghost var made: nat

    ghost function Now(): State
      reads this
    {
      State(keeper, transition, active, idleSince, closing, threads, running, made)
    }

    constructor (idleRelease: real)
      ensures Now() == Start() && this.idleRelease == idleRelease
    {
      this.idleRelease := idleRelease;
      keeper, transition, active, idleSince, closing := None, Idle, 0, None, false;
      threads, running, made := map[], {}, 0;
    }

    /** What a pass through the opening section of `acquire` comes to. */
    method TryAcquire(ghost t: ThreadId, healthy: bool) returns (entered: bool, mustStart: bool)
      requires t !in threads
      modifies this
      ensures Now() == AcquireSpec(old(Now()), t, healthy)
      ensures entered <==> t in threads && threads[t] == Holding
      ensures mustStart <==> t in threads && threads[t] == Starting
    {
      entered, mustStart := false, false;
      if closing || transition == Acquiring || transition == Draining { return; }
      if keeper.Some? {
        if healthy {
          active := active + 1;
          idleSince := None;
          threads := threads[t := Holding];
          entered := true;
        }
        return;
      }
      transition := Acquiring;
      threads := threads[t := Starting];
      mustStart := true;
    }

    method PublishKeeper(ghost t: ThreadId, k: Keeper) returns (entered: bool)
      modifies this
      ensures Now() == PublishSpec(old(Now()), t, k)
      ensures entered == !closing
    {
      entered := !closing;
      if closing {
        transition := Draining;
        threads := threads[t := Abandoning(k)];
      } else {
        keeper, active, idleSince, transition := Some(k), 1, None, Ready;
        threads := threads[t := Holding];
      }
    }

    /** False when the release is refused. */
    method ReleaseActivity(ghost t: ThreadId, now: real) returns (ok: bool)
      modifies this
      ensures Now() == ReleaseSpec(old(Now()), t, now)
      ensures ok == (old(active) > 0)
    {
      ok := active > 0;
      threads := threads - {t};
      if !ok { return; }
      active := active - 1;
      if active == 0 { idleSince := Some(now); }
    }

    method BeginDrain(ghost t: ThreadId, healthy: bool, unload: bool, now: real) returns (drains: bool)
      requires t !in threads
      modifies this
      ensures Now() == Apply(old(Now()), TryDrain(t, healthy, unload, now), idleRelease)
      ensures drains == MayDrain(old(Now()), healthy, unload, now, idleRelease)
    {
      if closing || keeper.None? || transition != Ready || active != 0 || idleSince.None? ||
         (healthy && now - idleSince.value < idleRelease) || !unload {
        return false;
      }
      transition := Draining;
      threads := threads[t := Quiescing(keeper.value)];
      return true;
    }

    method EndDrain(ghost t: ThreadId, k: Keeper)
      modifies this
      ensures Now() == FinishDrainSpec(old(Now()), t, k)
    {
      if keeper == Some(k) { keeper := None; }
      idleSince := None;
      transition := Idle;
      threads := threads - {t};
    }

    method Close(ghost t: ThreadId) returns (held: Option<Keeper>)
      modifies this
      ensures Now() == BeginCloseSpec(old(Now()), t)
      ensures held == old(keeper)
    {
      closing := true;
      held := keeper;
      if keeper.Some? {
        transition := Draining;
        threads := threads[t := QuiescingLast(keeper.value)];
      } else {
        threads := threads[t := Ending];
      }
    }
  }
}
