/** The standby schedule and how long an answer to "unload?" stays valid
    (`StandbySchedule` and `_policy_locked` in services/accelerator/src/openclaw_accelerator/broker.py).

    The time zone is a function from the UTC second to the local minute of the day.
 */
module StandbyPolicy {
  import opened Wrappers

  const POLICY_MAX_AGE_SEC := 60
  const MINUTES_A_DAY := 1440

  datatype Schedule = Schedule(start: nat, end: nat)

  predicate InWindow(s: Schedule, minute: int) {
    if s.start < s.end then s.start <= minute < s.end else minute >= s.start || minute < s.end
  }

  /** Plain or wrapping past midnight, the window is the arc of the clock face from `start` to `end`. */
  lemma WindowIsAnArc(s: Schedule, minute: nat)
    requires s.start < MINUTES_A_DAY && s.end < MINUTES_A_DAY && minute < MINUTES_A_DAY && s.start != s.end
    ensures InWindow(s, minute) <==>
            (minute - s.start) % MINUTES_A_DAY < (s.end - s.start) % MINUTES_A_DAY
  {
    assert forall d: int :: -MINUTES_A_DAY < d < 0 ==> d % MINUTES_A_DAY == d + MINUTES_A_DAY;
  }

  /** Zone changes, daylight saving included, happen on whole UTC minutes. */
  ghost predicate MinuteAligned(local: int -> int) {
    forall s: int, t: int :: s / 60 == t / 60 ==> local(s) == local(t)
  }

  /** Whether unloading is requested in UTC second `second`. */
  predicate Requested(automatic: bool, schedule: Option<Schedule>, local: int -> int, second: int) {
    automatic && (schedule.Some? ==> InWindow(schedule.value, local(second)))
  }

  /** At most one change of the local minute lies in a window of sixty seconds. */
  lemma OneChangeAMinute(
    automatic: bool, schedule: Option<Schedule>, local: int -> int, from: int, s: int, t: int)
    requires MinuteAligned(local)
    requires from <= s < t <= from + POLICY_MAX_AGE_SEC
    requires Requested(automatic, schedule, local, s) != Requested(automatic, schedule, local, t)
    ensures forall u :: from <= u <= s ==>
              Requested(automatic, schedule, local, u) == Requested(automatic, schedule, local, s)
    ensures forall u :: t <= u <= from + POLICY_MAX_AGE_SEC ==>
              Requested(automatic, schedule, local, u) == Requested(automatic, schedule, local, t)
  {
    assert local(s) != local(t);
    assert s / 60 != t / 60;
    forall u | from <= u <= s
      ensures Requested(automatic, schedule, local, u) == Requested(automatic, schedule, local, s)
    {
      assert u / 60 == s / 60;
      assert local(u) == local(s);
    }
    forall u | t <= u <= from + POLICY_MAX_AGE_SEC
      ensures Requested(automatic, schedule, local, u) == Requested(automatic, schedule, local, t)
    {
      assert u / 60 == t / 60;
      assert local(u) == local(t);
    }
  }

  /** The answer is constant up to `validUntil`, which is a minute away or exactly the first second
      with the other answer. */
  method Policy(automatic: bool, schedule: Option<Schedule>, local: int -> int, epoch: real)
    returns (requested: bool, validUntil: int)
    requires MinuteAligned(local)
    ensures epoch.Floor < validUntil <= epoch.Floor + POLICY_MAX_AGE_SEC
    ensures forall t :: epoch.Floor <= t < validUntil ==> Requested(automatic, schedule, local, t) == requested
    ensures validUntil < epoch.Floor + POLICY_MAX_AGE_SEC ==>
              Requested(automatic, schedule, local, validUntil) != requested
  {
    var from := epoch.Floor;
    requested := Requested(automatic, schedule, local, from);
    validUntil := from + POLICY_MAX_AGE_SEC;
    if schedule.Some? && automatic {
      var end := from + POLICY_MAX_AGE_SEC;
      if InWindow(schedule.value, local(end)) != requested {
        var start := from;
        while end - start > 1
          invariant from <= start < end <= from + POLICY_MAX_AGE_SEC
          invariant Requested(automatic, schedule, local, start) == requested
          invariant Requested(automatic, schedule, local, end) != requested
        {
          var middle := (start + end) / 2;
          if InWindow(schedule.value, local(middle)) == requested {
            start := middle;
          } else {
            end := middle;
          }
        }
        validUntil := end;
        OneChangeAMinute(automatic, schedule, local, from, start, end);
      } else {
        forall t | from <= t <= end
          ensures Requested(automatic, schedule, local, t) == requested
        {
          if Requested(automatic, schedule, local, t) != requested {
            OneChangeAMinute(automatic, schedule, local, from, from, t);
          }
        }
      }
    }
  }
}
