/** How a streaming response uses the two together: it holds one reservation for its whole
    lifetime, and its producer computes inside it (services/stt/src/openclaw_local_stt/app.py).

    The stream's `release` gives the reservation back.  Nothing in `ServiceState` makes that wait
    for the computation; that it always does is what this module proves.
 */
module StreamingService {
  import A = ServiceAdmission
  import S = InferenceStream
  import W = RequestWork

  datatype State = State(service: A.State, streams: map<A.ClientId, S.State>)

  function Empty(capacity: int): State { State(A.Empty(capacity), map[]) }

  datatype Step =
    | Open(c: A.ClientId, workClass: W.WorkClass, stopped: bool)
    | StartCompute(c: A.ClientId, stopped: bool)
    | WakeUp(ticket: A.Ticket, stopped: bool)
    | EndCompute(c: A.ClientId)
    | Stream(c: A.ClientId, step: S.Step)

  predicate ProducerIn(s: State, c: A.ClientId, states: set<S.Producer>) {
    c in s.streams && s.streams[c].producer in states
  }

  /** `produce` yields inside `with state.compute(work)` and has left it when it ends or raises;
      a failed append closes the generator, which leaves it too, before the failure is reported. */
  predicate Enabled(s: State, step: Step) {
    match step
    case Open(c, workClass, stopped) => c !in s.streams && c !in s.service.clients
    case StartCompute(c, _) =>
      ProducerIn(s, c, {S.Producing}) && A.Enabled(s.service, A.StartCompute(c, step.stopped))
    case WakeUp(ticket, _) =>
      ProducerIn(s, ticket.owner, {S.Producing}) && A.Enabled(s.service, A.WakeUp(ticket, step.stopped))
    case EndCompute(c) =>
      ProducerIn(s, c, {S.Producing, S.Failing}) && A.Enabled(s.service, A.EndCompute(c))
    case Stream(c, step) =>
      && c in s.streams && S.Enabled(s.streams[c], step)
      && (step.Produce? ==> A.InPhase(s.service, c, A.Computing))
      && (step.ProduceEnds? || step.ProduceRaises? || step.Report? ==>
            !A.InPhase(s.service, c, A.Computing) && !A.InPhase(s.service, c, A.Queued))
  }

  function Limits(): S.Limits { S.Limits(1024 * 1024, 256) }

  /** Where a stream step calls `release`, the reservation goes back in the same instant. */
  function Apply(s: State, step: Step): State
    requires Enabled(s, step)
  {
    match step
    case Open(c, workClass, stopped) =>
      var service := A.Reserve(s.service, c, workClass, stopped);
      if c in service.clients then State(service, s.streams[c := S.Start()]) else s
    case StartCompute(c, stopped) => s.(service := A.Apply(s.service, A.StartCompute(c, stopped)))
    case WakeUp(ticket, stopped) => s.(service := A.Apply(s.service, A.WakeUp(ticket, stopped)))
    case EndCompute(c) => s.(service := A.Apply(s.service, A.EndCompute(c)))
    case Stream(c, step) =>
      var stream := S.Apply(s.streams[c], step, Limits());
      State(if stream.releases > s.streams[c].releases && s.service.reserved > 0
            then A.GiveBack(s.service, c) else s.service,
            s.streams[c := stream])
  }

  predicate Legal(s: State, steps: seq<Step>)
    decreases |steps|
  {
    steps == [] || (Enabled(s, steps[0]) && Legal(Apply(s, steps[0]), steps[1..]))
  }

  function Run(s: State, steps: seq<Step>): State
    requires Legal(s, steps)
    decreases |steps|
  {
    if steps == [] then s else Run(Apply(s, steps[0]), steps[1..])
  }

  /** The reservations are the streams that have not released, and only a producer that is still
      at work waits for the token or holds it. */
  ghost predicate Nested(s: State) {
    && (forall c :: c in s.service.clients <==> c in s.streams && s.streams[c].releases == 0)
    && (forall c :: A.InPhase(s.service, c, A.Computing) ==> ProducerIn(s, c, {S.Producing, S.Failing}))
    && (forall c :: A.InPhase(s.service, c, A.Queued) ==> ProducerIn(s, c, {S.Producing}))
  }

  ghost predicate Inv(s: State) {
    && A.Inv(s.service) && A.Fresh(s.service)
    && (forall c :: c in s.streams ==> S.Inv(s.streams[c], Limits()))
    && Nested(s)
  }

  lemma ServiceStepKeepsNested(s: State, step: A.Step, c: A.ClientId)
    requires Nested(s) && A.Enabled(s.service, step)
    requires (step.StartCompute? && step.c == c) || (step.WakeUp? && step.ticket.owner == c)
    requires ProducerIn(s, c, {S.Producing})
    ensures Nested(s.(service := A.Apply(s.service, step)))
  {
    var t := A.Apply(s.service, step);
    if t != s.service {
      if step.WakeUp? {
        A.LookMoves(s.service, step.ticket, step.stopped);
      } else {
        var outcome := A.Join(s.service, c, step.stopped).1;
        A.BecomeMoves(s.service, t, c, if outcome == A.Stopped then A.Phase.Reserved
                                       else if outcome == A.Waits then A.Queued else A.Computing);
      }
      var phase :| A.Moves(s.service, t, c, phase);
      assert forall d :: d in t.clients <==> d in s.service.clients;
    }
  }

  lemma EndComputeKeepsNested(s: State, c: A.ClientId)
    requires Nested(s) && A.Enabled(s.service, A.EndCompute(c))
    ensures Nested(s.(service := A.Apply(s.service, A.EndCompute(c))))
  {
    var t := A.Apply(s.service, A.EndCompute(c));
    A.BecomeMoves(s.service, t, c, A.Phase.Reserved);
    assert forall d :: d in t.clients <==> d in s.service.clients;
  }

  /** What one stream step can do, seen from its reservation. */
  ghost predicate StreamMoves(before: S.State, step: S.Step, after: S.State) {
    && before.releases <= after.releases <= 1
    && (after.releases > before.releases ==> before.producer !in {S.Producing, S.Failing})
    && (before.producer == S.Producing && after.producer != S.Producing ==>
          (step.Produce? && after.producer == S.Failing) || step.ProduceEnds? || step.ProduceRaises?)
    && (before.producer == S.Failing && after.producer != S.Failing ==> step.Report?)
  }

  lemma StreamStepMoves(s: S.State, step: S.Step)
    requires S.Inv(s, Limits()) && S.Enabled(s, step)
    ensures S.Inv(S.Apply(s, step, Limits()), Limits())
    ensures StreamMoves(s, step, S.Apply(s, step, Limits()))
  {
    S.StepKeepsInv(s, step, Limits());
  }

  lemma ReservedOtherwise(s: A.State, c: A.ClientId)
    requires c in s.clients && !A.InPhase(s, c, A.Computing) && !A.InPhase(s, c, A.Queued)
    ensures A.InPhase(s, c, A.Phase.Reserved)
  {
  }

  lemma SomeoneIsCounted(s: A.State, c: A.ClientId)
    requires A.Counted(s) && c in s.clients
    ensures s.reserved > 0
  {
    assert |s.clients.Keys| > 0;
  }

  /** A stream releases only when its client neither computes nor waits to: the token never outlives
      the reservation. */
  lemma ReleaseFindsNoToken(s: State, c: A.ClientId, step: S.Step)
    requires Nested(s) && A.Counted(s.service) && Enabled(s, Stream(c, step))
    requires StreamMoves(s.streams[c], step, S.Apply(s.streams[c], step, Limits()))
    requires S.Apply(s.streams[c], step, Limits()).releases > s.streams[c].releases
    ensures A.Enabled(s.service, A.Depart(c))
    ensures Apply(s, Stream(c, step)).service == A.GiveBack(s.service, c)
  {
    ReservedOtherwise(s.service, c);
    SomeoneIsCounted(s.service, c);
  }

  lemma RetainedKeepsNested(s: State, c: A.ClientId, step: S.Step, stream: S.State)
    requires Nested(s) && Enabled(s, Stream(c, step))
    requires StreamMoves(s.streams[c], step, stream) && stream.releases == s.streams[c].releases
    ensures Nested(s.(streams := s.streams[c := stream]))
  {
  }

  lemma ReleasedKeepsNested(s: State, c: A.ClientId, stream: S.State)
    requires Nested(s) && c in s.streams && stream.releases > 0 && s.service.reserved > 0
    ensures Nested(State(A.GiveBack(s.service, c), s.streams[c := stream]))
  {
    var service := A.GiveBack(s.service, c);
    assert forall d :: d in service.clients <==> d in s.service.clients && d != c;
    assert forall d, p :: A.InPhase(service, d, p) <==> d != c && A.InPhase(s.service, d, p);
  }

  lemma {:induction false} ReleasingStepKeepsInv(s: State, c: A.ClientId, step: S.Step)
    requires Inv(s) && Enabled(s, Stream(c, step))
    requires S.Apply(s.streams[c], step, Limits()).releases > s.streams[c].releases
    ensures Inv(Apply(s, Stream(c, step)))
  {
    StreamStepMoves(s.streams[c], step);
    ReleaseFindsNoToken(s, c, step);
    ReleasedKeepsNested(s, c, S.Apply(s.streams[c], step, Limits()));
    A.DepartKeepsInv(s.service, c);
    hide A.Inv, S.Inv;
  }

  lemma {:induction false} StreamStepKeepsInv(s: State, c: A.ClientId, step: S.Step)
    requires Inv(s) && Enabled(s, Stream(c, step))
    ensures Inv(Apply(s, Stream(c, step)))
  {
    var stream := S.Apply(s.streams[c], step, Limits());
    if stream.releases > s.streams[c].releases {
      ReleasingStepKeepsInv(s, c, step);
    } else {
      StreamStepMoves(s.streams[c], step);
      RetainedKeepsNested(s, c, step, stream);
    }
  }

  lemma OpenKeepsNested(s: State, c: A.ClientId, workClass: W.WorkClass)
    requires Nested(s) && c !in s.streams && c !in s.service.clients
    requires !A.ReserveRefused(s.service, workClass)
    ensures Nested(State(A.Reserve(s.service, c, workClass, false), s.streams[c := S.Start()]))
  {
    var service := A.Reserve(s.service, c, workClass, false);
    assert forall d :: d in service.clients <==> d in s.service.clients || d == c;
    assert forall d, p :: A.InPhase(service, d, p) <==>
             if d == c then p == A.Phase.Reserved else A.InPhase(s.service, d, p);
  }

  lemma StartHasInv()
    ensures S.Inv(S.Start(), Limits())
  {
  }

  lemma {:induction false} OpenKeepsInv(s: State, c: A.ClientId, workClass: W.WorkClass, stopped: bool)
    requires Inv(s) && Enabled(s, Open(c, workClass, stopped))
    ensures Inv(Apply(s, Open(c, workClass, stopped)))
  {
    A.StepKeepsInv(s.service, A.Arrive(c, workClass, stopped));
    StartHasInv();
    if !stopped && !A.ReserveRefused(s.service, workClass) { OpenKeepsNested(s, c, workClass); }
  }

  lemma {:induction false} StepKeepsInv(s: State, step: Step)
    requires Inv(s) && Enabled(s, step)
    ensures Inv(Apply(s, step))
  {
    match step
    case Open(c, workClass, stopped) => OpenKeepsInv(s, c, workClass, stopped);
    case StartCompute(c, stopped) =>
      A.StepKeepsInv(s.service, A.StartCompute(c, stopped));
      ServiceStepKeepsNested(s, A.StartCompute(c, stopped), c);
    case WakeUp(ticket, stopped) =>
      A.StepKeepsInv(s.service, A.WakeUp(ticket, stopped));
      ServiceStepKeepsNested(s, A.WakeUp(ticket, stopped), ticket.owner);
    case EndCompute(c) =>
      A.StepKeepsInv(s.service, A.EndCompute(c));
      EndComputeKeepsNested(s, c);
    case Stream(c, step) => StreamStepKeepsInv(s, c, step);
  }

  lemma {:induction false} RunKeepsInv(s: State, steps: seq<Step>)
    requires Inv(s) && Legal(s, steps)
    ensures Inv(Run(s, steps))
    decreases |steps|
  {
    if steps != [] {
      StepKeepsInv(s, steps[0]);
      RunKeepsInv(Apply(s, steps[0]), steps[1..]);
    }
  }

  function Unreleased(s: State): set<A.ClientId> {
    set c | c in s.streams && s.streams[c].releases == 0
  }

  /** In every run of the whole service: whoever computes is an unreleased stream whose producer is
      at work, the unreleased streams are exactly the reservations, and they fit the capacity. */
  lemma TokenInsideReservation(capacity: int, steps: seq<Step>, s: State)
    requires Legal(Empty(capacity), steps) && s == Run(Empty(capacity), steps)
    ensures forall c :: A.InPhase(s.service, c, A.Computing) ==>
              c in Unreleased(s) && s.streams[c].producer in {S.Producing, S.Failing}
    ensures forall c, d :: A.InPhase(s.service, c, A.Computing) && A.InPhase(s.service, d, A.Computing) ==> c == d
    ensures |Unreleased(s)| == s.service.reserved
    ensures s.service.reserved > 0 ==> s.service.reserved <= s.service.capacity
  {
    A.EmptyHasInv(capacity);
    RunKeepsInv(Empty(capacity), steps);
    TokenHeldInside(s);
  }

  lemma {:induction false} TokenHeldInside(s: State)
    requires Inv(s)
    ensures forall c :: A.InPhase(s.service, c, A.Computing) ==>
              c in Unreleased(s) && s.streams[c].producer in {S.Producing, S.Failing}
    ensures forall c, d :: A.InPhase(s.service, c, A.Computing) && A.InPhase(s.service, d, A.Computing) ==> c == d
    ensures |Unreleased(s)| == s.service.reserved
    ensures s.service.reserved > 0 ==> s.service.reserved <= s.service.capacity
  {
    assert Unreleased(s) == s.service.clients.Keys;
    assert |s.service.clients.Keys| == |s.service.clients|;
  }
}
