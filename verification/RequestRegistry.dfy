/** The request registry: which request IDs are live, which are tombstones
    (services/stt/src/openclaw_local_stt/request_lifecycle.py).

    Every method holds one lock, so every call is one atomic step.  Times are integers in
    milliseconds of a clock that never runs backwards.
 */
module RequestRegistry {
  import opened Collections
  import opened RequestWork
  import opened Wrappers

  type Id = string

  const TOMBSTONE_MS := 300_000
  const MAX_TIMEOUT_MS := 300_000
  const BACKGROUND_TIMEOUT_MS := 1500

  datatype Error = Invalid | Unavailable | Overloaded

  datatype State = State(
    timeoutMs: nat, capacity: int,
    active: map<Id, Work>, retired: map<Id, int>, background: set<Id>)

  // ----- the request headers

  predicate IsDecimal(s: string) { s != "" && forall i :: 0 <= i < |s| ==> '0' <= s[i] <= '9' }

  function Decimal(s: string): (n: nat)
    requires s == "" || IsDecimal(s)
  {
    if s == "" then 0 else 10 * Decimal(s[..|s| - 1]) + (s[|s| - 1] as int - '0' as int)
  }

  /** The milliseconds a request may take, from its optional header, the service limit and its class. */
  function Timeout(raw: Option<string>, limit: nat, workClass: WorkClass): Result<nat, Error> {
    var asked: Result<nat, Error> :=
      if raw.None? then Ok(limit)
      else if |raw.value| > 6 || !IsDecimal(raw.value) then Err(Invalid)
      else
        var n := Decimal(raw.value);
        if n < 1 || n > MAX_TIMEOUT_MS then Err(Invalid) else Ok(if n < limit then n else limit);
    if asked.Err? then asked
    else if workClass == Background && asked.value > BACKGROUND_TIMEOUT_MS then Ok(BACKGROUND_TIMEOUT_MS)
    else asked
  }

  /** Whatever the header says, an admitted request gets at least one millisecond, at most the
      service limit, and a background one at most its own bound. */
  lemma TimeoutIsBounded(raw: Option<string>, limit: nat, workClass: WorkClass)
    requires 1 <= limit <= MAX_TIMEOUT_MS
    ensures Timeout(raw, limit, workClass).Ok? ==>
              var t := Timeout(raw, limit, workClass).value;
              && 1 <= t <= limit
              && (workClass == Background ==> t <= BACKGROUND_TIMEOUT_MS)
    ensures Timeout(raw, limit, workClass).Err? <==>
              raw.Some? && (|raw.value| > 6 || !IsDecimal(raw.value) || !(1 <= Decimal(raw.value) <= MAX_TIMEOUT_MS))
  {
  }

  // ----- the specification of the methods

  function Prune(s: State, now: int): State {
    var live := map id | id in s.retired && s.retired[id] > now :: s.retired[id];
    s.(retired := live, background := s.background * (s.active.Keys + live.Keys))
  }

  function Used(s: State): nat { |s.active| + |s.retired| }

  /** `capacity // 4` floors. */
  function BackgroundLimit(capacity: int): int { if capacity / 4 < 256 then capacity / 4 else 256 }

  function Refusal(s: State, id: Id, workClass: WorkClass): Option<Error> {
    if id in s.active || id in s.retired then Some(Unavailable)
    else if workClass == Background &&
            (|s.background| >= BackgroundLimit(s.capacity) || Used(s) >= s.capacity - 1) then Some(Overloaded)
    else if Used(s) >= s.capacity then Some(Overloaded)
    else None
  }

  function Admit(s: State, work: Work): State {
    s.(active := s.active[work.id := work],
       background := if work.workClass == Background then s.background + {work.id} else s.background)
  }

  datatype Event =
    | Register(id: Option<Id>, timeout: Option<string>, workClass: Option<WorkClass>, now: int)
    | Finish(finished: Id, now: int)
    | Cancel(id: Option<Id>, now: int)

  /** `id` and `workClass` are `None` when the header does not parse. */
  function RegisterSpec(
    s: State, id: Option<Id>, timeout: Option<string>, workClass: Option<WorkClass>, now: int)
    : (State, Result<Work, Error>)
  {
    if workClass.None? || id.None? then (s, Err(Invalid))
    else
      var ms := Timeout(timeout, s.timeoutMs, workClass.value);
      if ms.Err? then (s, Err(ms.error))
      else
        var p := Prune(s, now);
        var refusal := Refusal(p, id.value, workClass.value);
        if refusal.Some? then (p, Err(refusal.value))
        else
          var work := Work(id.value, now + ms.value, false, workClass.value);
          (Admit(p, work), Ok(work))
  }

  function FinishSpec(s: State, id: Id, now: int): State {
    if id !in s.active then s
    else s.(active := s.active - {id}, retired := s.retired[id := now + TOMBSTONE_MS])
  }

  function CancelSpec(s: State, id: Option<Id>, now: int): (State, Option<Error>) {
    if id.None? then (s, Some(Invalid))
    else
      var p := Prune(s, now);
      if id.value in p.active then
        (p.(active := p.active[id.value := p.active[id.value].(cancelled := true)]), None)
      else if id.value in p.retired then (p, None)
      else if Used(p) >= p.capacity then (p, Some(Overloaded))
      else (p.(retired := p.retired[id.value := now + TOMBSTONE_MS]), None)
  }

  function Step(s: State, e: Event): State {
    match e
    case Register(id, timeout, workClass, now) => RegisterSpec(s, id, timeout, workClass, now).0
    case Finish(id, now) => FinishSpec(s, id, now)
    case Cancel(id, now) => CancelSpec(s, id, now).0
  }

  function Run(s: State, events: seq<Event>): State
    decreases |events|
  {
    if events == [] then s else Run(Step(s, events[0]), events[1..])
  }

  // ----- what every run keeps

  ghost predicate Inv(s: State) {
    && s.active.Keys !! s.retired.Keys
    && (s.capacity >= 0 ==> Used(s) <= s.capacity)
    && s.background <= s.active.Keys + s.retired.Keys
    && (s.capacity >= 0 ==> |s.background| <= BackgroundLimit(s.capacity))
    && (forall id :: id in s.active ==> s.active[id].id == id)
  }

  function Empty(timeoutMs: nat, capacity: int): State { State(timeoutMs, capacity, map[], map[], {}) }

  lemma {:induction false} PruneKeepsInv(s: State, now: int)
    requires Inv(s)
    ensures Inv(Prune(s, now))
    ensures Used(Prune(s, now)) <= Used(s)
  {
    var p := Prune(s, now);
    SubsetSize(p.retired.Keys, s.retired.Keys);
    SubsetSize(p.background, s.background);
  }

  lemma AdmitUses(s: State, work: Work)
    requires work.id !in s.active
    ensures Used(Admit(s, work)) == Used(s) + 1
  {
    NewKey(s.active, work.id, work);
  }

  lemma AdmitKeepsInv(s: State, work: Work)
    requires Inv(s) && Refusal(s, work.id, work.workClass).None?
    ensures Inv(Admit(s, work))
  {
    AdmitUses(s, work);
  }

  lemma FinishKeepsInv(s: State, id: Id, now: int)
    requires Inv(s)
    ensures Inv(FinishSpec(s, id, now))
  {
    if id in s.active {
      var t := FinishSpec(s, id, now);
      assert t.active.Keys == s.active.Keys - {id};
      assert t.retired.Keys == s.retired.Keys + {id};
      assert |t.active.Keys| == |s.active.Keys| - 1;
      assert |t.retired.Keys| == |s.retired.Keys| + 1;
    }
  }

  lemma MarkingKeepsInv(s: State, id: Id)
    requires Inv(s) && id in s.active
    ensures Inv(s.(active := s.active[id := s.active[id].(cancelled := true)]))
  {
    var active := s.active[id := s.active[id].(cancelled := true)];
    assert active.Keys == s.active.Keys;
    assert |active.Keys| == |s.active.Keys|;
  }

  lemma BuryingKeepsInv(s: State, id: Id, expiry: int)
    requires Inv(s) && id !in s.active && id !in s.retired && Used(s) < s.capacity
    ensures Inv(s.(retired := s.retired[id := expiry]))
  {
    hide BackgroundLimit;
    NewKey(s.retired, id, expiry);
  }

  lemma {:induction false} CancelKeepsInv(s: State, id: Option<Id>, now: int)
    requires Inv(s)
    ensures Inv(CancelSpec(s, id, now).0)
  {
    if id.Some? {
      PruneKeepsInv(s, now);
      var p := Prune(s, now);
      if id.value in p.active {
        MarkingKeepsInv(p, id.value);
      } else if id.value !in p.retired && Used(p) < p.capacity {
        BuryingKeepsInv(p, id.value, now + TOMBSTONE_MS);
      }
    }
  }

  lemma {:induction false} RegisterKeepsInv(
    s: State, id: Option<Id>, timeout: Option<string>, workClass: Option<WorkClass>, now: int)
    requires Inv(s)
    ensures Inv(RegisterSpec(s, id, timeout, workClass, now).0)
  {
    hide Inv, Timeout, Prune, Admit;
    var r := RegisterSpec(s, id, timeout, workClass, now).1;
    PruneKeepsInv(s, now);
    if r.Ok? { AdmitKeepsInv(Prune(s, now), r.value); }
  }

  lemma {:induction false} StepKeepsInv(s: State, e: Event)
    requires Inv(s)
    ensures Inv(Step(s, e))
  {
    match e
    case Register(id, timeout, workClass, now) => RegisterKeepsInv(s, id, timeout, workClass, now);
    case Finish(id, now) => FinishKeepsInv(s, id, now);
    case Cancel(id, now) => CancelKeepsInv(s, id, now);
  }

  lemma {:induction false} RunKeepsInv(s: State, events: seq<Event>)
    requires Inv(s)
    ensures Inv(Run(s, events))
    decreases |events|
  {
    if events != [] {
      StepKeepsInv(s, events[0]);
      RunKeepsInv(Step(s, events[0]), events[1..]);
    }
  }

  /** In every run: live and retired IDs are disjoint and together within capacity, and background
      IDs are among them and within their own share. */
  lemma RegistryIsBounded(timeoutMs: nat, capacity: nat, events: seq<Event>)
    ensures var s := Run(Empty(timeoutMs, capacity), events);
            && s.active.Keys !! s.retired.Keys
            && |s.active| + |s.retired| <= capacity
            && s.background <= s.active.Keys + s.retired.Keys
            && |s.background| <= capacity / 4 && |s.background| <= 256
  {
    RunKeepsInv(Empty(timeoutMs, capacity), events);
    RunKeepsCapacity(Empty(timeoutMs, capacity), events);
  }

  lemma StepKeepsCapacity(s: State, e: Event)
    ensures Step(s, e).capacity == s.capacity
  {
  }

  lemma {:induction false} RunKeepsCapacity(s: State, events: seq<Event>)
    ensures Run(s, events).capacity == s.capacity
    decreases |events|
  {
    if events != [] {
      StepKeepsCapacity(s, events[0]);
      RunKeepsCapacity(Step(s, events[0]), events[1..]);
    }
  }

  lemma RoomAdmits(s: State, id: Id, at: int)
    requires Inv(s) && Used(s) < s.capacity && id !in s.active && id !in s.retired
    ensures RegisterSpec(s, Some(id), None, Some(Foreground), at).1.Ok?
  {
    PruneKeepsInv(s, at);
    assert Refusal(Prune(s, at), id, Foreground).None?;
  }

  lemma {:induction false} BackgroundIsNotLast(s: State, id: Id, timeout: Option<string>, now: int)
    requires Inv(s) && RegisterSpec(s, Some(id), timeout, Some(Background), now).1.Ok?
    ensures var t := RegisterSpec(s, Some(id), timeout, Some(Background), now).0;
            Inv(t) && Used(t) < t.capacity
  {
    var (t, r) := RegisterSpec(s, Some(id), timeout, Some(Background), now);
    PruneKeepsInv(s, now);
    AdmitUses(Prune(s, now), r.value);
    AdmitKeepsInv(Prune(s, now), r.value);
  }

  /** A background request never takes the last place, so after admitting one a foreground request
      with an unused ID is still admitted. */
  lemma {:induction false} BackgroundLeavesRoom(s: State, id: Id, timeout: Option<string>, now: int, other: Id, at: int)
    requires Inv(s) && RegisterSpec(s, Some(id), timeout, Some(Background), now).1.Ok?
    requires var t := RegisterSpec(s, Some(id), timeout, Some(Background), now).0;
             other !in t.active && other !in t.retired
    ensures var t := RegisterSpec(s, Some(id), timeout, Some(Background), now).0;
            RegisterSpec(t, Some(other), None, Some(Foreground), at).1.Ok?
  {
    BackgroundIsNotLast(s, id, timeout, now);
    RoomAdmits(RegisterSpec(s, Some(id), timeout, Some(Background), now).0, other, at);
  }

  // ----- tombstones

  predicate Buried(s: State, id: Id, expiry: int) {
    id in s.retired && s.retired[id] == expiry && id !in s.active
  }

  lemma StepLeavesTombstone(s: State, e: Event, id: Id, expiry: int)
    requires Buried(s, id, expiry) && e.now < expiry
    ensures Buried(Step(s, e), id, expiry)
  {
    assert Buried(Prune(s, e.now), id, expiry);
  }

  /** While its tombstone lives, nothing replaces it and its ID stays out of the live requests. */
  lemma {:induction false} TombstoneStays(s: State, events: seq<Event>, id: Id, expiry: int)
    requires Buried(s, id, expiry)
    requires forall e :: e in events ==> e.now < expiry
    ensures Buried(Run(s, events), id, expiry)
    decreases |events|
  {
    if events != [] {
      assert events[0] in events;
      StepLeavesTombstone(s, events[0], id, expiry);
      TombstoneStays(Step(s, events[0]), events[1..], id, expiry);
    }
  }

  /** The request ended: it finished, or it was cancelled before it arrived. */
  predicate Buries(s: State, e: Event, id: Id) {
    match e
    case Finish(finished, _) => finished == id && id in s.active
    case Cancel(cancelled, now) =>
      cancelled == Some(id) && id !in s.active && id !in Prune(s, now).retired &&
      CancelSpec(s, cancelled, now).1.None?
    case _ => false
  }

  lemma BuriedAtOnce(s: State, e: Event, id: Id)
    requires Inv(s) && Buries(s, e, id)
    ensures Buried(Step(s, e), id, e.now + TOMBSTONE_MS)
  {
  }

  lemma RegisterMeetsTombstone(
    s: State, id: Id, expiry: int, timeout: Option<string>, workClass: WorkClass, at: int)
    requires Buried(s, id, expiry) && Timeout(timeout, s.timeoutMs, workClass).Ok?
    ensures RegisterSpec(s, Some(id), timeout, Some(workClass), at).1 == Err(Unavailable) <==> at < expiry
  {
  }

  /** An ID that finished, or that was cancelled before it arrived, cannot be registered for 300
      seconds, whatever happens in between; then the tombstone stops standing in its way. */
  lemma {:induction false} NoReuseWhileTombstoneLives(
    s: State, gone: Event, id: Id, events: seq<Event>, timeout: Option<string>, workClass: WorkClass, at: int)
    requires Inv(s) && Buries(s, gone, id)
    requires forall e :: e in events ==> e.now < gone.now + TOMBSTONE_MS
    requires Timeout(timeout, Run(Step(s, gone), events).timeoutMs, workClass).Ok?
    ensures RegisterSpec(Run(Step(s, gone), events), Some(id), timeout, Some(workClass), at).1 == Err(Unavailable)
            <==> at < gone.now + TOMBSTONE_MS
  {
    BuriedAtOnce(s, gone, id);
    TombstoneStays(Step(s, gone), events, id, gone.now + TOMBSTONE_MS);
    RegisterMeetsTombstone(
      Run(Step(s, gone), events), id, gone.now + TOMBSTONE_MS, timeout, workClass, at);
  }

  // ----- the registry itself

  class Registry {
    const timeoutMs: nat
    const capacity: int
    var active: map<Id, Work>
    var retired: map<Id, int>
    var background: set<Id>

    ghost function Now(): State
      reads this
    {
      State(timeoutMs, capacity, active, retired, background)
    }

    constructor (timeoutMs: nat, capacity: int)
      requires 1 <= timeoutMs <= MAX_TIMEOUT_MS
      ensures Now() == Empty(timeoutMs, capacity)
    {
      this.timeoutMs, this.capacity := timeoutMs, capacity;
      active, retired, background := map[], map[], {};
    }

    method PruneExpired(now: int)
      modifies this
      ensures Now() == Prune(old(Now()), now)
    {
      retired := map id | id in retired && retired[id] > now :: retired[id];
      if background != {} {
        background := background * (active.Keys + retired.Keys);
      }
    }

    method RegisterRequest(
      id: Option<Id>, timeout: Option<string>, workClass: Option<WorkClass>, now: int)
      returns (r: Result<Work, Error>)
      modifies this
      ensures (Now(), r) == RegisterSpec(old(Now()), id, timeout, workClass, now)
    {
      if workClass.None? || id.None? { return Err(Invalid); }
      var ms := Timeout(timeout, timeoutMs, workClass.value);
      if ms.Err? { return Err(ms.error); }
      PruneExpired(now);
      if id.value in active || id.value in retired { return Err(Unavailable); }
      var used := |active| + |retired|;
      if workClass.value == Background &&
         (|background| >= BackgroundLimit(capacity) || used >= capacity - 1) {
        return Err(Overloaded);
      }
      if used >= capacity { return Err(Overloaded); }
      var work := Work(id.value, now + ms.value, false, workClass.value);
      active := active[id.value := work];
      if workClass.value == Background { background := background + {id.value}; }
      return Ok(work);
    }

    method FinishRequest(work: Work, now: int)
      modifies this
      ensures Now() == FinishSpec(old(Now()), work.id, now)
    {
      if work.id in active {
        active := active - {work.id};
        retired := retired[work.id := now + TOMBSTONE_MS];
      }
    }

    method CancelRequest(id: Option<Id>, now: int) returns (error: Option<Error>)
      modifies this
      ensures (Now(), error) == CancelSpec(old(Now()), id, now)
    {
      if id.None? { return Some(Invalid); }
      PruneExpired(now);
      error := None;
      if id.value in active {
        active := active[id.value := active[id.value].(cancelled := true)];
      } else if id.value !in retired {
        if |active| + |retired| >= capacity { return Some(Overloaded); }
        retired := retired[id.value := now + TOMBSTONE_MS];
      }
    }
  }
}
