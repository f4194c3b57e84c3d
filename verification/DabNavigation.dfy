/** Moving a digital radio tuner by relative commands that may be lost
    (packages/openclaw-denon/src/dab-navigation.ts).

    The tuner sits on a ring of stations, each known only by its name.  A command moves it one station
    or is lost; what it says about the station it is on is true, but it may stay silent.  Which
    commands are lost and which answers stay out is given for the whole run: any choice is possible.
 */
module DabNavigation {
  import opened Wrappers

  datatype Direction = Up | Down

  function Opposite(d: Direction): Direction { if d == Up then Down else Up }

  function Neighbour(size: nat, pos: nat, d: Direction): (r: nat)
    requires pos < size
    ensures r < size
  {
    if d == Up then (if pos + 1 == size then 0 else pos + 1) else if pos == 0 then size - 1 else pos - 1
  }

  lemma ThereAndBack(size: nat, pos: nat, d: Direction)
    requires pos < size
    ensures Neighbour(size, Neighbour(size, pos, d), Opposite(d)) == pos
  {
  }

  /** `lost(n)`: the n-th command has no effect.  `silent(n)`: the n-th question gets no answer. */
  datatype Faults = Faults(lost: nat -> bool, silent: nat -> bool)

  datatype Tuner = Tuner(names: seq<string>, pos: nat, sent: nat, asked: nat)

  predicate OnRing(t: Tuner) { t.pos < |t.names| }

  /** An unseen hop: where a probe that succeeds can leave the tuner instead of at `q`, ahead of it.  The
      next station but one is taken for `q` through a station of another name, the next one through its
      own; a station without a name tells nothing. */
  function Hop(names: seq<string>, q: nat, d: Direction): (s: Option<nat>)
    requires q < |names|
    ensures s.Some? ==> s.value < |names| && names[s.value] == names[q]
  {
    var next := Neighbour(|names|, q, d);
    var over := Neighbour(|names|, next, d);
    if names[next] == "" then None
    else if names[next] == names[q] then Some(next)
    else if names[over] == names[q] then Some(over)
    else None
  }

  /** A step from `s`, taken for one from `p`, is noticed there. */
  predicate LeadsAstray(names: seq<string>, p: nat, s: Option<nat>, d: Direction)
    requires p < |names| && (s.Some? ==> s.value < |names|)
  {
    s.Some? && s.value != p && names[Neighbour(|names|, s.value, d)] != names[p]
  }

  /** One or two hops from `p` lead to another station whose neighbour has another name. */
  predicate Misleads(names: seq<string>, p: nat, d: Direction)
    requires p < |names|
  {
    var s := Hop(names, p, d);
    LeadsAstray(names, p, s, d) || (s.Some? && LeadsAstray(names, p, Hop(names, s.value, d), d))
  }

  predicate DistinctNames(names: seq<string>) { forall i, j :: 0 <= i < j < |names| ==> names[i] != names[j] }

  function Name(t: Tuner): string
    requires OnRing(t)
  {
    t.names[t.pos]
  }

  function Sent(t: Tuner, f: Faults, d: Direction): (u: Tuner)
    requires OnRing(t)
    ensures OnRing(u)
  {
    t.(pos := if f.lost(t.sent) then t.pos else Neighbour(|t.names|, t.pos, d), sent := t.sent + 1)
  }

  function Asked(t: Tuner): Tuner { t.(asked := t.asked + 1) }

  /** The name of the station the tuner moved to from `previous`, unless the wait runs out first. */
  function Changed(t: Tuner, f: Faults, previous: string): Option<string>
    requires OnRing(t)
  {
    if f.silent(t.asked) || Name(t) == previous then None else Some(Name(t))
  }

  function Current(t: Tuner, f: Faults): Option<string>
    requires OnRing(t)
  {
    if f.silent(t.asked) then None else Some(Name(t))
  }

  // ----- one logical step with recovery

  datatype Move = Moved(station: string, recovered: bool) | Unconfirmed

  /** The reverse probe: the tuner afterwards, and whether it is known to be where it started. */
  function Probe(t: Tuner, f: Faults, d: Direction, previous: string): (Tuner, bool)
    requires OnRing(t)
  {
    var u := Sent(t, f, Opposite(d));
    var back := Current(u, f);
    var v := Asked(u);
    if back.None? || back.value == "" then (v, false)
    else if back.value != previous then
      var w := Sent(v, f, d);
      (Asked(w), Changed(w, f, back.value) == Some(previous))
    else (Asked(v), Current(v, f) == Some(previous))
  }

  function Attempts(t: Tuner, f: Faults, d: Direction, previous: string, attempt: nat): (Tuner, Move)
    requires OnRing(t) && attempt <= 3
    decreases 3 - attempt
  {
    if attempt == 3 then (t, Unconfirmed)
    else
      var u := Sent(t, f, d);
      var station := Changed(u, f, previous);
      var v := Asked(u);
      if station.Some? then (v, Moved(station.value, attempt > 0))
      else if attempt == 2 then (v, Unconfirmed)
      else
        ProbeOnRing(v, f, d, previous);
        var (w, ok) := Probe(v, f, d, previous);
        if ok then Attempts(w, f, d, previous, attempt + 1) else (w, Unconfirmed)
  }

  lemma ProbeOnRing(t: Tuner, f: Faults, d: Direction, previous: string)
    requires OnRing(t)
    ensures OnRing(Probe(t, f, d, previous).0)
  {
  }

  /** Where a probe that succeeds after a command from `q` can leave the tuner: at `q`, one hop ahead, or
      behind it at a station of the same name. */
  predicate ProbedFrom(names: seq<string>, q: nat, d: Direction, w: nat)
    requires q < |names|
  {
    || w == q
    || Hop(names, q, d) == Some(w)
    || (w == Neighbour(|names|, q, Opposite(d)) && names[w] == names[q])
  }

  lemma ProbeFinds(t: Tuner, f: Faults, d: Direction, q: nat)
    requires OnRing(t) && q < |t.names|
    requires t.pos == q || t.pos == Neighbour(|t.names|, q, d)
    ensures var (u, ok) := Probe(t, f, d, t.names[q]);
            && u.names == t.names && t.sent < u.sent <= t.sent + 2
            && (ok ==> ProbedFrom(t.names, q, d, u.pos))
  {
    ThereAndBack(|t.names|, q, d);
    ThereAndBack(|t.names|, q, Opposite(d));
  }

  /** Among distinct names, a probe that succeeds after a command from `start` has the tuner back there. */
  lemma ProbeRestores(t: Tuner, f: Faults, d: Direction, start: nat)
    requires OnRing(t) && start < |t.names| && DistinctNames(t.names)
    requires t.pos == start || t.pos == Neighbour(|t.names|, start, d)
    ensures var (u, ok) := Probe(t, f, d, t.names[start]); ok ==> u.pos == start
  {
    ProbeFinds(t, f, d, start);
  }

  /** A command leaves the tuner where it is or on the next station, and is noticed only there. */
  lemma CommandMoves(t: Tuner, f: Faults, d: Direction)
    requires OnRing(t)
    ensures var u := Sent(t, f, d);
            && u.names == t.names && u.sent == t.sent + 1
            && (u.pos == t.pos || u.pos == Neighbour(|t.names|, t.pos, d))
            && (Changed(u, f, Name(t)).Some? ==>
                  && u.pos == Neighbour(|t.names|, t.pos, d) && Changed(u, f, Name(t)).value == Name(u)
                  && Name(u) != Name(t))
  {
  }

  /** An attempt returns from a neighbour of another name, gives up, or goes on from where its probe left off. */
  lemma {:induction false} OneAttempt(t: Tuner, f: Faults, d: Direction, attempt: nat) returns (w: Tuner)
    requires OnRing(t) && attempt < 3
    ensures OnRing(w) && w.names == t.names && t.sent < w.sent <= t.sent + (if attempt == 2 then 1 else 3)
    ensures var r := Attempts(t, f, d, Name(t), attempt);
            || (r == (w, Moved(Name(w), attempt > 0)) && w.pos == Neighbour(|t.names|, t.pos, d) &&
                Name(w) != Name(t) && w.sent == t.sent + 1)
            || r == (w, Unconfirmed)
            || (attempt < 2 && ProbedFrom(t.names, t.pos, d, w.pos) && w.sent > t.sent + 1 && Name(w) == Name(t) &&
                r == Attempts(w, f, d, Name(t), attempt + 1))
  {
    CommandMoves(t, f, d);
    w := Asked(Sent(t, f, d));
    if Changed(Sent(t, f, d), f, Name(t)).None? && attempt < 2 {
      ProbeOnRing(w, f, d, Name(t));
      ProbeFinds(w, f, d, t.pos);
      w := Probe(w, f, d, Name(t)).0;
    }
  }

  /** A move is noticed from `q` only if the next station has another name than `p`. */
  predicate Notices(names: seq<string>, p: nat, q: nat, d: Direction)
    requires p < |names| && q < |names|
  {
    names[Neighbour(|names|, q, d)] != names[p]
  }

  /** A step counted as one from `p` is made from there or nowhere. */
  predicate Faithful(names: seq<string>, p: nat, q: nat, d: Direction)
    requires p < |names| && q < |names|
  {
    Notices(names, p, q, d) ==> q == p
  }

  /** Behind a station of the same name nothing is noticed, and ahead of it lies that station. */
  lemma BehindIsBlind(names: seq<string>, p: nat, q: nat, d: Direction)
    requires p < |names| && q < |names| && names[q] == names[p]
    ensures var w := Neighbour(|names|, q, Opposite(d));
            && Faithful(names, p, w, d)
            && (names[w] == names[q] ==> Hop(names, w, d) == None || Hop(names, w, d) == Some(q))
  {
    ThereAndBack(|names|, q, Opposite(d));
  }

  /** Where two probes from `p` can leave the tuner, unless names mislead, no step is mistaken. */
  lemma TwoProbesAreFaithful(names: seq<string>, p: nat, d: Direction, q: nat, w: nat)
    requires p < |names| && !Misleads(names, p, d) && q < |names| && w < |names|
    requires ProbedFrom(names, p, d, q) && ProbedFrom(names, q, d, w)
    ensures Faithful(names, p, q, d) && Faithful(names, p, w, d)
  {
    BehindIsBlind(names, p, p, d);
    BehindIsBlind(names, p, q, d);
  }

  lemma CommandsAreFew(t: Tuner, f: Faults, d: Direction)
    requires OnRing(t)
    ensures var (u, move) := Attempts(t, f, d, Name(t), 0);
            && OnRing(u) && u.names == t.names && u.sent <= t.sent + 7
            && (move.Moved? ==> move.station == Name(u) && (move.recovered <==> u.sent > t.sent + 1))
  {
    var w := OneAttempt(t, f, d, 0);
    if Attempts(t, f, d, Name(t), 0) != (w, Unconfirmed) && w.sent > t.sent + 1 {
      var x := OneAttempt(w, f, d, 1);
      hide Probe, Sent, Changed, ProbedFrom;
      if Attempts(w, f, d, Name(t), 1) != (x, Unconfirmed) && x.sent > w.sent + 1 { var y := OneAttempt(x, f, d, 2); }
    }
  }

  /** Unless names mislead, a step that returns has moved the tuner to exactly the neighbour it was asked
      for, with at most seven commands, whatever was lost or left unanswered. */
  lemma {:induction false} ReturnsOnNeighbour(t: Tuner, f: Faults, d: Direction)
    requires OnRing(t) && !Misleads(t.names, t.pos, d)
    ensures var (u, move) := Attempts(t, f, d, Name(t), 0);
            && OnRing(u) && u.names == t.names && u.sent <= t.sent + 7
            && (move.Moved? ==> u.pos == Neighbour(|t.names|, t.pos, d) && move.station == t.names[u.pos])
            && (move.Moved? ==> (move.recovered <==> u.sent > t.sent + 1))
  {
    CommandsAreFew(t, f, d);
    var p := t.pos;
    var w := OneAttempt(t, f, d, 0);
    if ProbedFrom(t.names, p, d, w.pos) && Attempts(t, f, d, Name(t), 0) == Attempts(w, f, d, Name(t), 1) {
      TwoProbesAreFaithful(t.names, p, d, w.pos, w.pos);
      var x := OneAttempt(w, f, d, 1);
      if ProbedFrom(t.names, w.pos, d, x.pos) && Attempts(w, f, d, Name(t), 1) == Attempts(x, f, d, Name(t), 2) {
        TwoProbesAreFaithful(t.names, p, d, w.pos, x.pos);
        var y := OneAttempt(x, f, d, 2);
      }
    }
  }

  lemma DistinctNamesDoNotMislead(names: seq<string>, p: nat, d: Direction)
    requires p < |names| && DistinctNames(names)
    ensures !Misleads(names, p, d)
  {
  }

  /** The loop, against any receiver that behaves like the model. */
  class Receiver {
    const f: Faults
    var tuner: Tuner

    constructor (f: Faults, tuner: Tuner)
      requires OnRing(tuner)
      ensures this.f == f && this.tuner == tuner
    {
      this.f, this.tuner := f, tuner;
    }

    method Send(d: Direction)
      requires OnRing(tuner)
      modifies this
      ensures tuner == Sent(old(tuner), f, d)
    {
      tuner := Sent(tuner, f, d);
    }

    method AskChanged(previous: string) returns (station: Option<string>)
      requires OnRing(tuner)
      modifies this
      ensures station == Changed(old(tuner), f, previous) && tuner == Asked(old(tuner))
    {
      station := Changed(tuner, f, previous);
      tuner := Asked(tuner);
    }

    method AskCurrent() returns (station: Option<string>)
      requires OnRing(tuner)
      modifies this
      ensures station == Current(old(tuner), f) && tuner == Asked(old(tuner))
    {
      station := Current(tuner, f);
      tuner := Asked(tuner);
    }

    method ReverseProbe(d: Direction, previous: string) returns (ok: bool)
      requires OnRing(tuner)
      modifies this
      ensures OnRing(tuner) && (tuner, ok) == Probe(old(tuner), f, d, previous)
    {
      Send(Opposite(d));
      var back := AskCurrent();
      if back.None? || back.value == "" { return false; }
      if back.value != previous {
        Send(d);
        var restored := AskChanged(back.value);
        return restored == Some(previous);
      }
      var again := AskCurrent();
      return again == Some(previous);
    }

    /** One command after another until the target's name is seen. */
    method SelectByName(c: Catalog, d: Direction, initial: string, target: string) returns (selection: Selection)
      requires OnRing(tuner) && initial == Name(tuner)
      modifies this
      ensures OnRing(tuner) && (tuner, selection) == Navigate(old(tuner), f, c, d, target)
    {
      if initial == target && Count(c, target) == 1 { return Selected(0, true); }
      var current, unverified, step := initial, 0, 1;
      while step <= MaxSteps(c)
        invariant 1 <= step <= MaxSteps(c) + 1 && OnRing(tuner) && unverified >= 0
        invariant Select(tuner, f, c, d, target, current, unverified, step) ==
                  Select(old(tuner), f, c, d, target, initial, 0, 1)
        decreases MaxSteps(c) + 1 - step
      {
        Send(d);
        var station := AskChanged(current);
        if station.Some? {
          current := station.value;
          if current == target { return Selected(step, unverified == 0); }
        } else {
          if !MayPass(c, current, d, unverified) { return NotConfirmed; }
          unverified := unverified + 1;
          var observed := AskCurrent();
          if observed != Some(current) { return NotConfirmed; }
          if current == target { return Selected(step, false); }
        }
        step := step + 1;
      }
      return CatalogStale;
    }

    method MoveWithRecovery(d: Direction, previous: string) returns (move: Move)
      requires OnRing(tuner)
      modifies this
      ensures OnRing(tuner) && (tuner, move) == Attempts(old(tuner), f, d, previous, 0)
    {
      var recovered, attempt := false, 0;
      while attempt < 3
        invariant attempt <= 3 && OnRing(tuner) && recovered == (attempt > 0)
        invariant Attempts(tuner, f, d, previous, attempt) == Attempts(old(tuner), f, d, previous, 0)
      {
        Send(d);
        var station := AskChanged(previous);
        if station.Some? { return Moved(station.value, recovered); }
        if attempt == 2 { return Unconfirmed; }
        var ok := ReverseProbe(d, previous);
        if !ok { return Unconfirmed; }
        recovered, attempt := true, attempt + 1;
      }
      return Unconfirmed;
    }
  }

  // ----- names that mislead

  /** How many commands a hop from `q` takes. */
  function HopCost(names: seq<string>, q: nat, d: Direction): nat
    requires q < |names|
  {
    if names[Neighbour(|names|, q, d)] == names[q] then 2 else 3
  }

  /** The faults of a hop: the reverse command is lost, and the first move stays unseen. */
  predicate HopFaults(t: Tuner, f: Faults, d: Direction)
    requires OnRing(t)
  {
    && !f.lost(t.sent) && f.lost(t.sent + 1) && !f.lost(t.sent + 2)
    && f.silent(t.asked) && !f.silent(t.asked + 1) && !f.silent(t.asked + 2)
  }

  function Hopped(t: Tuner, d: Direction, s: nat): Tuner
    requires OnRing(t)
  {
    t.(pos := s, sent := t.sent + HopCost(t.names, t.pos, d), asked := t.asked + 3)
  }

  lemma HopHappens(t: Tuner, f: Faults, d: Direction, attempt: nat, s: nat)
    requires OnRing(t) && attempt < 2 && Hop(t.names, t.pos, d) == Some(s)
    requires HopFaults(t, f, d)
    ensures var u := Hopped(t, d, s);
            OnRing(u) && Name(u) == Name(t) &&
            Attempts(t, f, d, Name(t), attempt) == Attempts(u, f, d, Name(t), attempt + 1)
  {
    var next := Neighbour(|t.names|, t.pos, d);
    var u := t.(pos := next, sent := t.sent + 1);
    assert Sent(t, f, d) == u;
    var v := Asked(u);
    assert Sent(v, f, Opposite(d)) == v.(sent := t.sent + 2);
    assert Probe(v, f, d, Name(t)) == (Hopped(t, d, s), true);
  }

  lemma NextMoveIsSeen(t: Tuner, f: Faults, d: Direction, attempt: nat, previous: string)
    requires OnRing(t) && attempt < 3 && !f.lost(t.sent) && !f.silent(t.asked)
    requires t.names[Neighbour(|t.names|, t.pos, d)] != previous
    ensures var (u, move) := Attempts(t, f, d, previous, attempt);
            move.Moved? && u.pos == Neighbour(|t.names|, t.pos, d)
  {
  }

  lemma NeighboursDiffer(size: nat, p: nat, q: nat, d: Direction)
    requires p < size && q < size && p != q
    ensures Neighbour(size, p, d) != Neighbour(size, q, d)
  {
  }

  /** Faults under which names that mislead have the step return from another station than the neighbour. */
  lemma MisledBy(t: Tuner, d: Direction) returns (f: Faults)
    requires OnRing(t) && Misleads(t.names, t.pos, d)
    ensures var (u, move) := Attempts(t, f, d, Name(t), 0);
            move.Moved? && u.pos != Neighbour(|t.names|, t.pos, d)
  {
    var p, s := t.pos, Hop(t.names, t.pos, d).value;
    var u := Hopped(t, d, s);
    if LeadsAstray(t.names, p, Some(s), d) {
      f := Faults(n => n == t.sent + 1, n => n == t.asked);
      HopHappens(t, f, d, 0, s);
      NextMoveIsSeen(u, f, d, 1, Name(t));
      NeighboursDiffer(|t.names|, p, s, d);
    } else {
      var r := Hop(t.names, s, d).value;
      f := Faults(n => n == t.sent + 1 || n == u.sent + 1, n => n == t.asked || n == u.asked);
      HopHappens(t, f, d, 0, s);
      HopHappens(u, f, d, 1, r);
      NextMoveIsSeen(Hopped(u, d, r), f, d, 2, Name(t));
      NeighboursDiffer(|t.names|, p, r, d);
    }
  }

  /** The step can be trusted on exactly the rings whose names do not mislead: whatever is lost or left
      unanswered, a step that returns is on the neighbour. */
  lemma TrustedIff(t: Tuner, d: Direction)
    requires OnRing(t)
    ensures (forall f: Faults ::
               Attempts(t, f, d, Name(t), 0).1.Moved? ==>
                 Attempts(t, f, d, Name(t), 0).0.pos == Neighbour(|t.names|, t.pos, d)) <==>
            !Misleads(t.names, t.pos, d)
  {
    if Misleads(t.names, t.pos, d) {
      var f := MisledBy(t, d);
      assert Attempts(t, f, d, Name(t), 0).1.Moved?;
    } else {
      forall f: Faults | Attempts(t, f, d, Name(t), 0).1.Moved?
        ensures Attempts(t, f, d, Name(t), 0).0.pos == Neighbour(|t.names|, t.pos, d)
      {
        ReturnsOnNeighbour(t, f, d);
      }
    }
  }

  /** Two stations of one name in a row before another name mislead. */
  lemma RepeatedNamesMislead(names: seq<string>, p: nat, d: Direction)
    requires p < |names| && names[p] != ""
    requires var next := Neighbour(|names|, p, d);
             names[next] == names[p] && names[Neighbour(|names|, next, d)] != names[p]
    ensures Misleads(names, p, d)
  {
  }

  // ----- which way to go

  function Distance(size: nat, from: nat, to: nat, d: Direction): nat
    requires from < size && to < size
  {
    if d == Up then (to - from + size) % size else (from - to + size) % size
  }

  /** A station named `target` lies `k` > 0 steps in direction `d` from one named `current`. */
  ghost predicate Reaches(names: seq<string>, current: string, target: string, d: Direction, k: nat) {
    k > 0 && exists i, j :: 0 <= i < |names| && 0 <= j < |names| && names[i] == current && names[j] == target &&
                            Distance(|names|, i, j, d) == k
  }

  /** `Down` is chosen exactly when it can be strictly shorter than every way up. */
  method NearestDirection(names: seq<string>, current: string, target: string) returns (d: Direction)
    ensures d == Down <==> exists k :: Reaches(names, current, target, Down, k) &&
                                       forall l :: 0 < l <= k ==> !Reaches(names, current, target, Up, l)
  {
    hide Distance;
    var up: Option<nat>, down: Option<nat> := None, None;
    var i := 0;
    while i < |names|
      invariant 0 <= i <= |names|
      invariant Shortest(names, current, target, Up, i, 0, up)
      invariant Shortest(names, current, target, Down, i, 0, down)
    {
      if names[i] == current {
        var j := 0;
        while j < |names|
          invariant 0 <= j <= |names|
          invariant Shortest(names, current, target, Up, i, j, up)
          invariant Shortest(names, current, target, Down, i, j, down)
        {
          ShortestGrows(names, current, target, Up, i, j, up);
          ShortestGrows(names, current, target, Down, i, j, down);
          if names[j] == target {
            up := Least(up, Distance(|names|, i, j, Up));
            down := Least(down, Distance(|names|, i, j, Down));
          }
          j := j + 1;
        }
      }
      i := i + 1;
    }
    d := if down.Some? && (up.None? || down.value < up.value) then Down else Up;
    ShortestIsLeast(names, current, target, Up, up);
    ShortestIsLeast(names, current, target, Down, down);
  }

  /** Zero distances are passed over. */
  function Least(best: Option<nat>, k: nat): Option<nat> {
    if k == 0 then best else if best.None? || k < best.value then Some(k) else best
  }

  /** The pair (i, j) comes before (rows, columns) in the order of the two loops. */
  predicate Visited(i: nat, j: nat, rows: nat, columns: nat) { i < rows || (i == rows && j < columns) }

  ghost predicate Shortest(names: seq<string>, current: string, target: string, d: Direction,
                           rows: nat, columns: nat, best: Option<nat>)
  {
    && (best.Some? ==> Reaches(names, current, target, d, best.value))
    && (forall i, j :: 0 <= i < |names| && 0 <= j < |names| && Visited(i, j, rows, columns) &&
                       names[i] == current && names[j] == target && Distance(|names|, i, j, d) > 0 ==>
          best.Some? && best.value <= Distance(|names|, i, j, d))
  }

  lemma ShortestGrows(names: seq<string>, current: string, target: string, d: Direction, i: nat, j: nat,
      best: Option<nat>)
    requires i < |names| && j < |names| && names[i] == current && Shortest(names, current, target, d, i, j, best)
    ensures var k := if names[j] == target then Distance(|names|, i, j, d) else 0;
            Shortest(names, current, target, d, i, j + 1, Least(best, k))
  {
    hide Distance;
    var k := if names[j] == target then Distance(|names|, i, j, d) else 0;
    if k > 0 { assert Reaches(names, current, target, d, k); }
  }

  lemma ShortestIsLeast(names: seq<string>, current: string, target: string, d: Direction, best: Option<nat>)
    requires Shortest(names, current, target, d, |names|, 0, best)
    ensures best.Some? ==> Reaches(names, current, target, d, best.value)
    ensures forall k :: Reaches(names, current, target, d, k) ==> best.Some? && best.value <= k
  {
    forall k | Reaches(names, current, target, d, k) ensures best.Some? && best.value <= k {
      var i, j :| 0 <= i < |names| && 0 <= j < |names| && names[i] == current && names[j] == target &&
                  Distance(|names|, i, j, d) == k;
      assert Visited(i, j, |names|, 0);
    }
  }

  // ----- selecting a station by name

  function Occurrences(names: seq<string>, name: string): nat {
    if names == [] then 0 else (if names[0] == name then 1 else 0) + Occurrences(names[1..], name)
  }

  datatype Catalog = Catalog(names: seq<string>, known: map<string, nat>)

  /** How often a name occurs: in the cached list or, if that is more, as recorded before. */
  function Count(c: Catalog, name: string): nat {
    var listed := Occurrences(c.names, name);
    if name in c.known && c.known[name] > listed then c.known[name] else listed
  }

  function Unique(names: seq<string>): seq<string> {
    if names == [] then []
    else
      var rest := Unique(names[..|names| - 1]);
      if names[|names| - 1] in rest then rest else rest + [names[|names| - 1]]
  }

  function Repeats(c: Catalog, unique: seq<string>): nat {
    if unique == [] then 0
    else (if Count(c, unique[0]) > 0 then Count(c, unique[0]) - 1 else 0) + Repeats(c, unique[1..])
  }

  function Stations(c: Catalog, unique: seq<string>): nat {
    if unique == [] then 0 else Count(c, unique[0]) + Stations(c, unique[1..])
  }

  function AtMost(limit: nat, n: nat): nat { if n <= limit then n else limit }

  function MaxUnverified(c: Catalog): nat { AtMost(4, Repeats(c, Unique(c.names))) }

  function MaxSteps(c: Catalog): nat {
    var all := Stations(c, Unique(c.names));
    AtMost(128, if all < 2 then 2 else all)
  }

  /** Whether a step in direction `d` can lead from a station to one of the same name. */
  predicate MayStepToSameName(names: seq<string>, current: string, d: Direction) {
    exists i: nat :: i < |names| && names[i] == current && names[Neighbour(|names|, i, d)] == current
  }

  datatype Selection = Selected(steps: nat, confirmed: bool) | NotConfirmed | CatalogStale

  /** A command without an answer is let pass only where a repeated name can hide the step. */
  predicate MayPass(c: Catalog, current: string, d: Direction, unverified: nat) {
    && (MayStepToSameName(c.names, current, d) || Count(c, current) > Occurrences(c.names, current))
    && unverified + 1 <= MaxUnverified(c)
  }

  function Select(t: Tuner, f: Faults, c: Catalog, d: Direction, target: string, current: string, unverified: nat,
      step: nat)
      : (Tuner, Selection)
    requires OnRing(t) && 1 <= step <= MaxSteps(c) + 1
    decreases MaxSteps(c) + 1 - step
  {
    if step > MaxSteps(c) then (t, CatalogStale)
    else
      var u := Sent(t, f, d);
      var station := Changed(u, f, current);
      var v := Asked(u);
      if station.Some? then
        if station.value == target then (v, Selected(step, unverified == 0))
        else Select(v, f, c, d, target, station.value, unverified, step + 1)
      else if !MayPass(c, current, d, unverified) then (v, NotConfirmed)
      else if Current(v, f) != Some(current) then (Asked(v), NotConfirmed)
      else if current == target then (Asked(v), Selected(step, false))
      else Select(Asked(v), f, c, d, target, current, unverified + 1, step + 1)
  }

  function Navigate(t: Tuner, f: Faults, c: Catalog, d: Direction, target: string): (Tuner, Selection)
    requires OnRing(t)
  {
    if Name(t) == target && Count(c, target) == 1 then (t, Selected(0, true))
    else Select(t, f, c, d, target, Name(t), 0, 1)
  }

  function Moves(size: nat, pos: nat, d: Direction, n: nat): (r: nat)
    requires pos < size
    ensures r < size
  {
    if n == 0 then pos else Neighbour(size, Moves(size, pos, d, n - 1), d)
  }

  /** No station strictly between the start and `n` moves on has the name. */
  ghost predicate PassedBy(names: seq<string>, start: nat, d: Direction, target: string, n: nat)
    requires start < |names|
  {
    forall j :: 0 < j < n ==> names[Moves(|names|, start, d, j)] != target
  }

  lemma {:induction false} SelectHolds(t: Tuner, f: Faults, c: Catalog, d: Direction, target: string, unverified: nat,
                                       step: nat, start: nat)
    requires OnRing(t) && 1 <= step <= MaxSteps(c) + 1 && start < |t.names| && unverified <= MaxUnverified(c)
    requires unverified == 0 ==>
               t.pos == Moves(|t.names|, start, d, step - 1) && PassedBy(t.names, start, d, target, step)
    ensures var (u, selection) := Select(t, f, c, d, target, Name(t), unverified, step);
            && OnRing(u) && u.names == t.names && u.sent <= t.sent + (MaxSteps(c) + 1 - step)
            && (selection.Selected? ==> Name(u) == target && u.sent == t.sent + (selection.steps + 1 - step))
            && (selection.Selected? && selection.confirmed ==>
                  u.pos == Moves(|t.names|, start, d, selection.steps) &&
                  PassedBy(t.names, start, d, target, selection.steps))
            && (selection.Selected? && !selection.confirmed ==> MaxUnverified(c) > 0)
    decreases MaxSteps(c) + 1 - step
  {
    hide MaxSteps, MaxUnverified, MayStepToSameName, Count;
    if step <= MaxSteps(c) {
      var u := Sent(t, f, d);
      var v := Asked(u);
      if Changed(u, f, Name(t)).Some? {
        if Name(u) != target { SelectHolds(v, f, c, d, target, unverified, step + 1, start); }
      } else if MayPass(c, Name(t), d, unverified) && Current(v, f) == Some(Name(t)) && Name(t) != target {
        SelectHolds(Asked(v), f, c, d, target, unverified + 1, step + 1, start);
      }
    }
  }

  /** A selection that returns ends on a station of the requested name, after as many commands as it
      says and at most 128.  If it is confirmed, the tuner has moved that many stations and passed no
      other of that name. */
  lemma SelectionIsOnTarget(t: Tuner, f: Faults, c: Catalog, d: Direction, target: string)
    requires OnRing(t)
    ensures var (u, selection) := Navigate(t, f, c, d, target);
            && OnRing(u) && u.names == t.names && u.sent <= t.sent + MaxSteps(c) <= t.sent + 128
            && (selection.Selected? ==> Name(u) == target && u.sent == t.sent + selection.steps)
            && (selection.Selected? && selection.confirmed ==>
                  u.pos == Moves(|t.names|, t.pos, d, selection.steps) &&
                  PassedBy(t.names, t.pos, d, target, selection.steps))
  {
    SelectHolds(t, f, c, d, target, 0, 1, t.pos);
  }

  lemma {:induction false} UniqueOnce(names: seq<string>)
    ensures DistinctNames(Unique(names)) && forall n :: n in Unique(names) <==> n in names
    decreases |names|
  {
    if names != [] {
      UniqueOnce(names[..|names| - 1]);
      assert names == names[..|names| - 1] + [names[|names| - 1]];
    }
  }

  lemma {:induction false} NoRepeats(c: Catalog, unique: seq<string>)
    requires forall n :: n in unique ==> Count(c, n) <= 1
    ensures Repeats(c, unique) == 0
    decreases |unique|
  {
    if unique != [] {
      assert unique[0] in unique;
      NoRepeats(c, unique[1..]);
    }
  }

  /** With a list of distinct names, and none recorded twice before, every selection that returns is
      confirmed. */
  lemma DistinctIsConfirmed(t: Tuner, f: Faults, c: Catalog, d: Direction, target: string)
    requires OnRing(t) && forall n :: n in c.names ==> Count(c, n) <= 1
    ensures Navigate(t, f, c, d, target).1.Selected? ==> Navigate(t, f, c, d, target).1.confirmed
  {
    UniqueOnce(c.names);
    NoRepeats(c, Unique(c.names));
    SelectHolds(t, f, c, d, target, 0, 1, t.pos);
  }
}
