/** Bounded response lifetimes around a FIFO single-worker computation
    (`ServiceState` in services/stt/src/openclaw_local_stt/request_lifecycle.py).

    Every section under the condition is one atomic step: reserving and giving back, joining the
    queue (with the first look at its head), one wake-up of a waiter, and leaving the computation.
    A client is one reservation, and runs at most one computation at a time.
 */
module ServiceAdmission {
  import opened Collections
  import opened RequestWork

  type ClientId = nat

  /** `ticket = object()`: its number in join order, and the reservation it belongs to. */
  datatype Ticket = Ticket(number: nat, owner: ClientId)

  datatype Phase = Reserved | Queued | Computing

  datatype Client = Client(phase: Phase, workClass: WorkClass)

  datatype State = State(
    capacity: int, waiters: seq<Ticket>, active: nat, reserved: nat,
    clients: map<ClientId, Client>,
    joined: nat, entered: seq<Ticket>, withdrawn: set<nat>)

  datatype Outcome = Refused | Stopped | Waits | Enters

  function Empty(capacity: int): State { State(capacity, [], 0, 0, map[], 0, [], {}) }

  // ----- critical sections

  predicate ReserveRefused(s: State, workClass: WorkClass) {
    (workClass == Background && (s.capacity < 2 || s.reserved > 0 || s.active > 0 || s.waiters != [])) ||
    s.reserved >= s.capacity
  }

  function Reserve(s: State, c: ClientId, workClass: WorkClass, stopped: bool): State {
    if stopped || ReserveRefused(s, workClass) then s
    else s.(reserved := s.reserved + 1, clients := s.clients[c := Client(Phase.Reserved, workClass)])
  }

  function GiveBack(s: State, c: ClientId): State
    requires s.reserved > 0
  {
    s.(reserved := s.reserved - 1, clients := s.clients - {c})
  }

  function Remove(waiters: seq<Ticket>, ticket: Ticket): seq<Ticket> {
    if waiters == [] then []
    else if waiters[0] == ticket then waiters[1..]
    else [waiters[0]] + Remove(waiters[1..], ticket)
  }

  function Become(s: State, c: ClientId, phase: Phase): State
    requires c in s.clients
  {
    s.(clients := s.clients[c := s.clients[c].(phase := phase)])
  }

  /** One pass of the wait loop by the owner of `ticket`, which is among the waiters. */
  function Look(s: State, ticket: Ticket, stopped: bool): (State, Outcome)
    requires ticket.owner in s.clients && s.waiters != []
  {
    if stopped then
      (Become(s, ticket.owner, Phase.Reserved).(
         waiters := Remove(s.waiters, ticket), withdrawn := s.withdrawn + {ticket.number}), Stopped)
    else if s.active > 0 || s.waiters[0] != ticket then (Become(s, ticket.owner, Queued), Waits)
    else
      (Become(s, ticket.owner, Computing).(
         waiters := s.waiters[1..], active := 1, entered := s.entered + [ticket]), Enters)
  }

  predicate JoinRefused(s: State, workClass: WorkClass) {
    (workClass == Background && (s.active > 0 || s.waiters != [] || s.reserved > 1)) ||
    s.active + |s.waiters| >= s.capacity
  }

  function Join(s: State, c: ClientId, stopped: bool): (State, Outcome)
    requires c in s.clients
  {
    if JoinRefused(s, s.clients[c].workClass) then (s, Refused)
    else
      var ticket := Ticket(s.joined, c);
      Look(s.(waiters := s.waiters + [ticket], joined := s.joined + 1), ticket, stopped)
  }

  function Leave(s: State, c: ClientId): State
    requires c in s.clients
  {
    Become(s, c, Phase.Reserved).(active := 0)
  }

  // ----- the transition system

  datatype Step =
    | Arrive(c: ClientId, workClass: WorkClass, stopped: bool)
    | Depart(c: ClientId)
    | StartCompute(c: ClientId, stopped: bool)
    | WakeUp(ticket: Ticket, stopped: bool)
    | EndCompute(c: ClientId)

  predicate InPhase(s: State, c: ClientId, phase: Phase) {
    c in s.clients && s.clients[c].phase == phase
  }

  predicate InBackground(s: State, c: ClientId) {
    c in s.clients && s.clients[c].workClass == Background
  }

  predicate Enabled(s: State, step: Step) {
    match step
    case Arrive(c, _, _) => c !in s.clients
    case Depart(c) => InPhase(s, c, Phase.Reserved) && s.reserved > 0
    case StartCompute(c, _) => InPhase(s, c, Phase.Reserved)
    case WakeUp(ticket, _) => ticket in s.waiters && InPhase(s, ticket.owner, Queued)
    case EndCompute(c) => InPhase(s, c, Computing)
  }

  function Apply(s: State, step: Step): State
    requires Enabled(s, step)
  {
    match step
    case Arrive(c, workClass, stopped) => Reserve(s, c, workClass, stopped)
    case Depart(c) => GiveBack(s, c)
    case StartCompute(c, stopped) => Join(s, c, stopped).0
    case WakeUp(ticket, stopped) => Look(s, ticket, stopped).0
    case EndCompute(c) => Leave(s, c)
  }

  predicate Legal(s: State, steps: seq<Step>)
    decreases |steps|
  {
    steps == [] || (Enabled(s, steps[0]) && Legal(Apply(s, steps[0]), steps[1..]))
  }

  function Run(s: State, steps: seq<Step>): State
    requires Legal(s, steps)
    decreases |steps|
  {
    if steps == [] then s else Run(Apply(s, steps[0]), steps[1..])
  }

  // ----- what every interleaving keeps

  ghost predicate Counted(s: State) {
    && s.reserved == |s.clients|
    && (s.reserved > 0 ==> s.reserved <= s.capacity)
    && s.active <= 1
  }

  /** The queue holds exactly the waiting clients, the token exactly the computing one. */
  ghost predicate Placed(s: State) {
    && (forall i :: 0 <= i < |s.waiters| ==> InPhase(s, s.waiters[i].owner, Queued))
    && (forall i, j :: 0 <= i < j < |s.waiters| ==> s.waiters[i].owner != s.waiters[j].owner)
    && (forall c :: InPhase(s, c, Queued) ==> c in Owners(s.waiters))
    && (forall c, d :: InPhase(s, c, Computing) && InPhase(s, d, Computing) ==> c == d)
    && (s.active == 0 ==> forall c :: !InPhase(s, c, Computing))
    && (s.active == 1 ==> exists c :: InPhase(s, c, Computing))
  }

  ghost predicate BackgroundIsAlone(s: State) {
    && (forall c, d :: InBackground(s, c) && InBackground(s, d) ==> c == d)
    && (forall c :: InBackground(s, c) ==> !InPhase(s, c, Queued))
  }

  /** `line` is the join order less the withdrawn. */
  ghost predicate Ordered(line: seq<Ticket>, joined: nat, withdrawn: set<nat>) {
    && (forall i, j :: 0 <= i < j < |line| ==> line[i].number < line[j].number)
    && (forall i :: 0 <= i < |line| ==> line[i].number < joined && line[i].number !in withdrawn)
    && (forall n :: 0 <= n < joined && n !in withdrawn ==> exists i :: 0 <= i < |line| && line[i].number == n)
  }

  /** Tickets that entered, then tickets that wait, are in join order; the only others withdrew. */
  ghost predicate InJoinOrder(s: State) {
    Ordered(s.entered + s.waiters, s.joined, s.withdrawn)
  }

  ghost predicate Inv(s: State) {
    Counted(s) && Placed(s) && BackgroundIsAlone(s) && InJoinOrder(s)
  }

  /** Only `c` changes phase. */
  ghost predicate Moves(s: State, t: State, c: ClientId, phase: Phase) {
    && c in s.clients
    && t.clients.Keys == s.clients.Keys
    && |t.clients| == |s.clients|
    && (forall d, p :: InPhase(t, d, p) <==> if d == c then p == phase else InPhase(s, d, p))
    && (forall d :: InBackground(t, d) <==> InBackground(s, d))
  }

  lemma BecomeMoves(s: State, t: State, c: ClientId, phase: Phase)
    requires c in s.clients && t.clients == Become(s, c, phase).clients
    ensures Moves(s, t, c, phase)
  {
    assert t.clients.Keys == s.clients.Keys;
    assert |t.clients.Keys| == |s.clients.Keys|;
  }

  function Owners(waiters: seq<Ticket>): set<ClientId> {
    set i | 0 <= i < |waiters| :: waiters[i].owner
  }

  lemma {:induction false} OwnersCount(waiters: seq<Ticket>)
    requires forall i, j :: 0 <= i < j < |waiters| ==> waiters[i].owner != waiters[j].owner
    ensures |Owners(waiters)| == |waiters|
  {
    if waiters != [] {
      var rest, last := waiters[..|waiters| - 1], waiters[|waiters| - 1];
      OwnersCount(rest);
      assert Owners(waiters) == Owners(rest) + {last.owner};
      assert last.owner !in Owners(rest);
    }
  }

  /** Everyone in the queue or computing holds a reservation of their own. */
  lemma PlacesInUse(s: State, c: ClientId)
    requires Counted(s) && Placed(s) && InPhase(s, c, Phase.Reserved)
    ensures s.active + |s.waiters| + 1 <= s.reserved <= s.capacity
  {
    OwnersCount(s.waiters);
    var busy := Owners(s.waiters);
    assert busy <= s.clients.Keys && c !in busy;
    if s.active == 1 {
      var d :| InPhase(s, d, Computing);
      assert d !in busy;
      SubsetSize(busy + {d} + {c}, s.clients.Keys);
    } else {
      SubsetSize(busy + {c}, s.clients.Keys);
    }
    assert |s.clients.Keys| == |s.clients|;
  }

  // ----- the queue

  function Drop(waiters: seq<Ticket>, k: nat): (rest: seq<Ticket>)
    requires k < |waiters|
    ensures |rest| == |waiters| - 1
    ensures forall i :: 0 <= i < |rest| ==> rest[i] == waiters[if i < k then i else i + 1]
  {
    waiters[..k] + waiters[k + 1..]
  }

  lemma {:induction false} RemoveAt(waiters: seq<Ticket>, k: nat)
    requires k < |waiters|
    requires forall i, j :: 0 <= i < j < |waiters| ==> waiters[i].owner != waiters[j].owner
    ensures Remove(waiters, waiters[k]) == Drop(waiters, k)
  {
    if k > 0 {
      RemoveAt(waiters[1..], k - 1);
      assert waiters[0] != waiters[k];
    }
  }

  lemma DropOwner(waiters: seq<Ticket>, k: nat)
    requires k < |waiters|
    requires forall i, j :: 0 <= i < j < |waiters| ==> waiters[i].owner != waiters[j].owner
    ensures forall c :: c in Owners(Drop(waiters, k)) <==> c in Owners(waiters) && c != waiters[k].owner
  {
    forall c | c in Owners(waiters) && c != waiters[k].owner
      ensures c in Owners(Drop(waiters, k))
    {
      var i :| 0 <= i < |waiters| && waiters[i].owner == c;
      assert Drop(waiters, k)[if i < k then i else i - 1].owner == c;
    }
  }

  lemma WithdrawKeepsPlaced(s: State, k: nat)
    requires Placed(s) && k < |s.waiters|
    ensures Placed(Look(s, s.waiters[k], true).0)
  {
    var ticket := s.waiters[k];
    var t := Look(s, ticket, true).0;
    RemoveAt(s.waiters, k);
    DropOwner(s.waiters, k);
    BecomeMoves(s, t, ticket.owner, Phase.Reserved);
    KeepsComputing(s, t, ticket.owner, Phase.Reserved);
  }

  /** A move between other phases leaves the computing client alone. */
  lemma KeepsComputing(s: State, t: State, c: ClientId, phase: Phase)
    requires Placed(s) && Moves(s, t, c, phase) && !InPhase(s, c, Computing) && phase != Computing
    ensures forall d :: InPhase(t, d, Computing) <==> InPhase(s, d, Computing)
    ensures s.active == 1 ==> exists d :: InPhase(t, d, Computing)
  {
    if s.active == 1 {
      var d :| InPhase(s, d, Computing);
      assert InPhase(t, d, Computing);
    }
  }

  lemma AdmitKeepsPlaced(s: State)
    requires Placed(s) && s.waiters != [] && s.active == 0
    ensures Placed(Look(s, s.waiters[0], false).0)
  {
    var t := Look(s, s.waiters[0], false).0;
    BecomeMoves(s, t, s.waiters[0].owner, Computing);
    assert InPhase(t, s.waiters[0].owner, Computing);
    forall c | InPhase(t, c, Queued)
      ensures c in Owners(t.waiters)
    {
      assert InPhase(s, c, Queued);
      var i :| 0 <= i < |s.waiters| && s.waiters[i].owner == c;
      assert t.waiters[i - 1].owner == c;
    }
  }

  lemma LookMoves(s: State, ticket: Ticket, stopped: bool)
    requires ticket.owner in s.clients && s.waiters != []
    ensures exists phase :: Moves(s, Look(s, ticket, stopped).0, ticket.owner, phase)
  {
    var (t, outcome) := Look(s, ticket, stopped);
    BecomeMoves(s, t, ticket.owner,
                if outcome == Stopped then Phase.Reserved else if outcome == Waits then Queued else Computing);
  }

  lemma LookKeepsPlaced(s: State, ticket: Ticket, stopped: bool)
    requires Placed(s) && s.active <= 1 && ticket in s.waiters
    ensures Placed(Look(s, ticket, stopped).0)
  {
    var k :| 0 <= k < |s.waiters| && s.waiters[k] == ticket;
    if stopped {
      WithdrawKeepsPlaced(s, k);
    } else if s.active > 0 || s.waiters[0] != ticket {
      assert Become(s, ticket.owner, Queued).clients == s.clients;
    } else {
      AdmitKeepsPlaced(s);
    }
  }

  lemma DropKeepsOrder(line: seq<Ticket>, k: nat, joined: nat, withdrawn: set<nat>)
    requires Ordered(line, joined, withdrawn) && k < |line|
    ensures Ordered(Drop(line, k), joined, withdrawn + {line[k].number})
  {
    hide Drop;
    forall n | 0 <= n < joined && n !in withdrawn + {line[k].number}
      ensures exists i :: 0 <= i < |Drop(line, k)| && Drop(line, k)[i].number == n
    {
      var i :| 0 <= i < |line| && line[i].number == n;
      assert Drop(line, k)[if i < k then i else i - 1] == line[i];
    }
  }

  lemma DropBehind(a: seq<Ticket>, b: seq<Ticket>, k: nat)
    requires k < |b|
    ensures (a + b)[|a| + k] == b[k]
    ensures Drop(a + b, |a| + k) == a + Drop(b, k)
  {
  }

  lemma WithdrawKeepsOrder(s: State, t: State, k: nat)
    requires InJoinOrder(s) && k < |s.waiters|
    requires t.entered == s.entered && t.waiters == Drop(s.waiters, k)
    requires t.joined == s.joined && t.withdrawn == s.withdrawn + {s.waiters[k].number}
    ensures InJoinOrder(t)
  {
    DropBehind(s.entered, s.waiters, k);
    DropKeepsOrder(s.entered + s.waiters, |s.entered| + k, s.joined, s.withdrawn);
  }

  lemma LookKeepsOrder(s: State, ticket: Ticket, stopped: bool)
    requires Placed(s) && InJoinOrder(s) && ticket in s.waiters
    ensures InJoinOrder(Look(s, ticket, stopped).0)
  {
    var k :| 0 <= k < |s.waiters| && s.waiters[k] == ticket;
    var t := Look(s, ticket, stopped).0;
    if stopped {
      RemoveAt(s.waiters, k);
      WithdrawKeepsOrder(s, t, k);
    } else {
      assert t.entered + t.waiters == s.entered + s.waiters;
    }
  }

  // ----- joining

  /** The queue as a joining client leaves it for its first look. */
  function Queue(s: State, c: ClientId): State
    requires c in s.clients
  {
    Become(s, c, Queued).(waiters := s.waiters + [Ticket(s.joined, c)], joined := s.joined + 1)
  }

  lemma QueueThenLook(s: State, c: ClientId, stopped: bool)
    requires InPhase(s, c, Phase.Reserved) && !JoinRefused(s, s.clients[c].workClass)
    ensures Join(s, c, stopped) == Look(Queue(s, c), Ticket(s.joined, c), stopped)
  {
    var ticket := Ticket(s.joined, c);
    var plain := s.(waiters := s.waiters + [ticket], joined := s.joined + 1);
    forall phase: Phase
      ensures Become(Queue(s, c), c, phase) == Become(plain, c, phase)
    {
      assert Become(Queue(s, c), c, phase).clients == Become(plain, c, phase).clients;
    }
  }

  lemma QueueKeepsPlaced(s: State, c: ClientId)
    requires Placed(s) && InPhase(s, c, Phase.Reserved)
    ensures Placed(Queue(s, c))
  {
    var t := Queue(s, c);
    BecomeMoves(s, t, c, Queued);
    KeepsComputing(s, t, c, Queued);
    forall d | InPhase(t, d, Queued)
      ensures d in Owners(t.waiters)
    {
      if d == c {
        assert t.waiters[|s.waiters|].owner == c;
      } else {
        assert InPhase(s, d, Queued);
        var i :| 0 <= i < |s.waiters| && s.waiters[i].owner == d;
        assert t.waiters[i].owner == d;
      }
    }
  }

  lemma QueueKeepsOrder(s: State, c: ClientId)
    requires InJoinOrder(s) && c in s.clients
    requires s.joined !in s.withdrawn
    ensures InJoinOrder(Queue(s, c))
  {
    var line, next := s.entered + s.waiters, s.entered + (s.waiters + [Ticket(s.joined, c)]);
    assert next == line + [Ticket(s.joined, c)];
    forall n | 0 <= n < s.joined + 1 && n !in s.withdrawn
      ensures exists i :: 0 <= i < |next| && next[i].number == n
    {
      if n < s.joined {
        var i :| 0 <= i < |line| && line[i].number == n;
        assert next[i].number == n;
      } else {
        assert next[|line|].number == n;
      }
    }
  }

  ghost predicate Fresh(s: State) { forall n :: n in s.withdrawn ==> n < s.joined }

  /** A background ticket is alone when it joins, so its first look never makes it wait. */
  lemma JoinKeepsBackground(s: State, c: ClientId, stopped: bool)
    requires BackgroundIsAlone(s) && c in s.clients
    ensures InBackground(s, c) ==> Join(s, c, stopped).1 != Waits
    ensures BackgroundIsAlone(Join(s, c, stopped).0)
  {
    if !JoinRefused(s, s.clients[c].workClass) {
      var (t, outcome) := Join(s, c, stopped);
      BecomeMoves(s, t, c,
                  if outcome == Stopped then Phase.Reserved else if outcome == Waits then Queued else Computing);
    }
  }

  lemma QueueKeepsCounted(s: State, c: ClientId)
    requires Counted(s) && c in s.clients
    ensures Counted(Queue(s, c))
  {
    BecomeMoves(s, Queue(s, c), c, Queued);
  }

  lemma JoinKeepsInv(s: State, c: ClientId, stopped: bool)
    requires Inv(s) && Fresh(s) && InPhase(s, c, Phase.Reserved)
    ensures Inv(Join(s, c, stopped).0) && Fresh(Join(s, c, stopped).0)
  {
    JoinKeepsBackground(s, c, stopped);
    if !JoinRefused(s, s.clients[c].workClass) {
      var ticket, q := Ticket(s.joined, c), Queue(s, c);
      QueueThenLook(s, c, stopped);
      QueueKeepsPlaced(s, c);
      QueueKeepsOrder(s, c);
      QueueKeepsCounted(s, c);
      assert q.waiters[|s.waiters|] == ticket;
      LookMoves(q, ticket, stopped);
      LookKeepsPlaced(q, ticket, stopped);
      LookKeepsOrder(q, ticket, stopped);
    }
  }

  // ----- the other steps

  lemma ArriveKeepsInv(s: State, c: ClientId, workClass: WorkClass, stopped: bool)
    requires Inv(s) && c !in s.clients
    ensures Inv(Reserve(s, c, workClass, stopped))
  {
    var t := Reserve(s, c, workClass, stopped);
    if t != s {
      assert t.clients.Keys == s.clients.Keys + {c};
      assert |t.clients.Keys| == |s.clients.Keys| + 1;
      assert t.entered + t.waiters == s.entered + s.waiters;
      assert forall d, p :: InPhase(t, d, p) <==> if d == c then p == Phase.Reserved else InPhase(s, d, p);
      assert forall d :: InBackground(t, d) <==> if d == c then workClass == Background else InBackground(s, d);
      if t.active == 1 {
        var d :| InPhase(s, d, Computing);
        assert InPhase(t, d, Computing);
      }
      if workClass == Background { assert s.clients.Keys == {}; }
    }
  }

  lemma DepartKeepsInv(s: State, c: ClientId)
    requires Inv(s) && Enabled(s, Depart(c))
    ensures Inv(GiveBack(s, c))
  {
    var t := GiveBack(s, c);
    assert t.clients.Keys == s.clients.Keys - {c};
    assert |t.clients.Keys| == |s.clients.Keys| - 1;
    assert t.entered + t.waiters == s.entered + s.waiters;
    assert forall d, p :: InPhase(t, d, p) <==> d != c && InPhase(s, d, p);
    assert forall d :: InBackground(t, d) <==> d != c && InBackground(s, d);
    if t.active == 1 {
      var d :| InPhase(s, d, Computing);
      assert InPhase(t, d, Computing);
    }
  }

  lemma LeaveKeepsInv(s: State, c: ClientId)
    requires Inv(s) && InPhase(s, c, Computing)
    ensures Inv(Leave(s, c))
  {
    var t := Leave(s, c);
    BecomeMoves(s, t, c, Phase.Reserved);
    assert t.entered + t.waiters == s.entered + s.waiters;
  }

  lemma WakeUpKeepsInv(s: State, ticket: Ticket, stopped: bool)
    requires Inv(s) && Fresh(s) && Enabled(s, WakeUp(ticket, stopped))
    ensures Inv(Look(s, ticket, stopped).0) && Fresh(Look(s, ticket, stopped).0)
  {
    LookMoves(s, ticket, stopped);
    LookKeepsPlaced(s, ticket, stopped);
    LookKeepsOrder(s, ticket, stopped);
    var k :| 0 <= k < |s.waiters| && s.waiters[k] == ticket;
    assert (s.entered + s.waiters)[|s.entered| + k] == ticket;
    assert InPhase(s, ticket.owner, Queued);
  }

  lemma StepKeepsInv(s: State, step: Step)
    requires Inv(s) && Fresh(s) && Enabled(s, step)
    ensures Inv(Apply(s, step)) && Fresh(Apply(s, step))
  {
    match step
    case Arrive(c, workClass, stopped) => ArriveKeepsInv(s, c, workClass, stopped);
    case Depart(c) => DepartKeepsInv(s, c);
    case StartCompute(c, stopped) => JoinKeepsInv(s, c, stopped);
    case WakeUp(ticket, stopped) => WakeUpKeepsInv(s, ticket, stopped);
    case EndCompute(c) => LeaveKeepsInv(s, c);
  }

  lemma {:induction false} RunKeepsInv(s: State, steps: seq<Step>)
    requires Inv(s) && Fresh(s) && Legal(s, steps)
    ensures Inv(Run(s, steps)) && Fresh(Run(s, steps))
    decreases |steps|
  {
    if steps != [] {
      StepKeepsInv(s, steps[0]);
      RunKeepsInv(Apply(s, steps[0]), steps[1..]);
    }
  }

  lemma EmptyHasInv(capacity: int)
    ensures Inv(Empty(capacity)) && Fresh(Empty(capacity))
  {
  }

  /** Whoever computes or waits holds a reservation of their own. */
  lemma PlacesAreReserved(s: State)
    requires Counted(s) && Placed(s)
    ensures s.active + |s.waiters| <= s.reserved
  {
    OwnersCount(s.waiters);
    var busy := Owners(s.waiters);
    assert busy <= s.clients.Keys && |s.clients.Keys| == |s.clients|;
    if s.active == 1 {
      var d :| InPhase(s, d, Computing);
      assert d !in busy;
      SubsetSize(busy + {d}, s.clients.Keys);
    } else {
      SubsetSize(busy, s.clients.Keys);
    }
  }

  /** In every interleaving computations exclude each other, at most one background reservation
      exists and it never waits, and the computing and waiting clients are within the reservations, which
      are within capacity. */
  lemma ComputationsExclude(capacity: int, steps: seq<Step>, s: State)
    requires Legal(Empty(capacity), steps) && s == Run(Empty(capacity), steps)
    ensures forall c, d :: InPhase(s, c, Computing) && InPhase(s, d, Computing) ==> c == d
    ensures s.reserved == |s.clients| && (s.reserved > 0 ==> s.reserved <= capacity)
    ensures forall c, d :: InBackground(s, c) && InBackground(s, d) ==> c == d
    ensures forall c :: InPhase(s, c, Queued) ==> s.clients[c].workClass == Foreground
    ensures s.active + |s.waiters| <= s.reserved && (capacity >= 0 ==> s.reserved <= capacity)
  {
    EmptyHasInv(capacity);
    RunKeepsInv(Empty(capacity), steps);
    PlacesAreReserved(s);
    RunKeepsCapacity(Empty(capacity), steps);
  }

  lemma {:induction false} RunKeepsCapacity(s: State, steps: seq<Step>)
    requires Legal(s, steps)
    ensures Run(s, steps).capacity == s.capacity
    decreases |steps|
  {
    if steps != [] { RunKeepsCapacity(Apply(s, steps[0]), steps[1..]); }
  }

  /** Tickets enter in the order they joined, skipping only those that withdrew: what has entered,
      followed by what waits, is the join order without the withdrawn. */
  lemma EntryFollowsJoinOrder(capacity: int, steps: seq<Step>, s: State)
    requires Legal(Empty(capacity), steps) && s == Run(Empty(capacity), steps)
    ensures InJoinOrder(s)
  {
    EmptyHasInv(capacity);
    RunKeepsInv(Empty(capacity), steps);
  }

  /** A reserved foreground request is never refused when it wants to compute. */
  lemma ReservedIsNeverRefused(capacity: int, steps: seq<Step>, s: State, c: ClientId, stopped: bool)
    requires Legal(Empty(capacity), steps) && s == Run(Empty(capacity), steps)
    requires InPhase(s, c, Phase.Reserved) && s.clients[c].workClass == Foreground
    ensures Join(s, c, stopped).1 != Refused
    ensures s.active + |s.waiters| < s.reserved <= s.capacity
  {
    EmptyHasInv(capacity);
    RunKeepsInv(Empty(capacity), steps);
    PlacesInUse(s, c);
  }

  /** The queue never stalls: while nobody computes, its head enters or withdraws at its next look. */
  lemma HeadMovesOn(capacity: int, steps: seq<Step>, s: State, stopped: bool)
    requires Legal(Empty(capacity), steps) && s == Run(Empty(capacity), steps)
    requires s.waiters != [] && s.active == 0
    ensures Enabled(s, WakeUp(s.waiters[0], stopped))
    ensures Look(s, s.waiters[0], stopped).1 == (if stopped then Stopped else Enters)
    ensures Look(s, s.waiters[0], stopped).0.waiters == s.waiters[1..]
  {
    EmptyHasInv(capacity);
    RunKeepsInv(Empty(capacity), steps);
    RemoveAt(s.waiters, 0);
  }

  // ----- the service state itself

  class ServiceState {
    const capacity: int
    var waiters: seq<Ticket>
    var active: nat
    var reserved: nat
    ghost var clients: map<ClientId, Client>
    ghost var joined: nat
    ghost var entered: seq<Ticket>
    ghost var withdrawn: set<nat>

    ghost function Now(): State
      reads this
    {
      State(capacity, waiters, active, reserved, clients, joined, entered, withdrawn)
    }

    constructor (capacity: int)
      ensures Now() == Empty(capacity)
    {
      this.capacity := capacity;
      waiters, active, reserved := [], 0, 0;
      clients, joined, entered, withdrawn := map[], 0, [], {};
    }

    method ReservePlace(ghost c: ClientId, workClass: WorkClass, stopped: bool) returns (ok: bool)
      modifies this
      ensures Now() == Reserve(old(Now()), c, workClass, stopped)
      ensures ok == (!stopped && !ReserveRefused(old(Now()), workClass))
    {
      if stopped { return false; }
      if workClass == Background && (capacity < 2 || reserved > 0 || active > 0 || waiters != []) { return false; }
      if reserved >= capacity { return false; }
      reserved := reserved + 1;
      clients := clients[c := Client(Phase.Reserved, workClass)];
      return true;
    }

    method GivePlaceBack(ghost c: ClientId)
      requires reserved > 0
      modifies this
      ensures Now() == GiveBack(old(Now()), c)
    {
      reserved := reserved - 1;
      clients := clients - {c};
    }

    method LookAtQueue(ticket: Ticket, stopped: bool) returns (outcome: Outcome)
      requires ticket.owner in clients && waiters != []
      modifies this
      ensures (Now(), outcome) == Look(old(Now()), ticket, stopped)
    {
      if stopped {
        waiters := Remove(waiters, ticket);
        clients := clients[ticket.owner := clients[ticket.owner].(phase := Phase.Reserved)];
        withdrawn := withdrawn + {ticket.number};
        return Stopped;
      }
      if active > 0 || waiters[0] != ticket {
        clients := clients[ticket.owner := clients[ticket.owner].(phase := Queued)];
        return Waits;
      }
      waiters := waiters[1..];
      active := 1;
      clients := clients[ticket.owner := clients[ticket.owner].(phase := Computing)];
      entered := entered + [ticket];
      return Enters;
    }

    method JoinQueue(ghost c: ClientId, ticket: Ticket, workClass: WorkClass, stopped: bool)
      returns (outcome: Outcome)
      requires c in clients && clients[c].workClass == workClass && ticket == Ticket(joined, c)
      modifies this
      ensures (Now(), outcome) == Join(old(Now()), c, stopped)
    {
      if workClass == Background && (active > 0 || waiters != [] || reserved > 1) { return Refused; }
      if active + |waiters| >= capacity { return Refused; }
      waiters := waiters + [ticket];
      joined := joined + 1;
      outcome := LookAtQueue(ticket, stopped);
    }

    method LeaveCompute(ghost c: ClientId)
      requires c in clients
      modifies this
      ensures Now() == Leave(old(Now()), c)
    {
      active := 0;
      clients := clients[c := clients[c].(phase := Phase.Reserved)];
    }
  }
}
