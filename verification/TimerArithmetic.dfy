/**
 How a point in time becomes a relative timerfd setting: nanoseconds are cut to microseconds, anything
 below 100 microseconds is raised to that, and the kernel counts from the moment of timerfd_settime.
*/
module TimerArithmetic {

  const NS_PER_US: int := 1_000
  const US_PER_S: int := 1_000_000
  const NS_PER_S: int := 1_000_000_000
  const SHORTEST_US: int := 100

  datatype Timespec = Timespec(sec: int, nsec: int)

  /** Integer division as in C++: towards zero. */
  function TruncDiv(a: int, b: int): int
    requires b > 0
  {
    if a >= 0 then a / b else -(-a / b)
  }

  function Microseconds(ns: int): int {
    var us := TruncDiv(ns, NS_PER_US);
    if us < SHORTEST_US then SHORTEST_US else us
  }

  function HowMuchTimeFromNow(when: int, now: int): Timespec {
    var us := Microseconds(when - now);
    Timespec(us / US_PER_S, us % US_PER_S * NS_PER_US)
  }

  function Nanoseconds(ts: Timespec): int {
    ts.sec * NS_PER_S + ts.nsec
  }

  /** A setting of the timerfd: what for, the clock when the delay was computed, and when it was set. */
  datatype Alarm = Alarm(target: int, readAt: int, setAt: int) {
    function Deadline(): int {
      setAt + Nanoseconds(HowMuchTimeFromNow(target, readAt))
    }
  }

  /** The setting is always a legal, non-zero timespec, so that arming never disarms. */
  lemma SettingIsLegal(when: int, now: int)
    ensures var ts := HowMuchTimeFromNow(when, now);
            0 <= ts.sec && 0 <= ts.nsec < NS_PER_S && ts != Timespec(0, 0)
  {
    var us := Microseconds(when - now);
    assert us == us / US_PER_S * US_PER_S + us % US_PER_S;
  }

  lemma DelayInNanoseconds(when: int, now: int)
    ensures Nanoseconds(HowMuchTimeFromNow(when, now)) == Microseconds(when - now) * NS_PER_US
  {
    var us := Microseconds(when - now);
    assert us == us / US_PER_S * US_PER_S + us % US_PER_S;
  }

  /** The delay is the shortest one, or right to within the microsecond that was cut off. */
  lemma DelayIsClose(when: int, now: int)
    ensures var delay := Nanoseconds(HowMuchTimeFromNow(when, now));
            if when - now < SHORTEST_US * NS_PER_US then delay == SHORTEST_US * NS_PER_US
            else SHORTEST_US * NS_PER_US <= delay <= when - now < delay + NS_PER_US
  {
    DelayInNanoseconds(when, now);
  }

  /** Never late by more than the time between reading the clock and setting the timer, or the shortest delay. */
  lemma DeadlineIsEarlyEnough(a: Alarm)
    ensures a.setAt < a.Deadline()
    ensures a.Deadline() <= a.target + (a.setAt - a.readAt) || a.Deadline() == a.setAt + SHORTEST_US * NS_PER_US
  {
    DelayIsClose(a.target, a.readAt);
  }

  /** A deadline lies before its target by less than a microsecond, if at all. */
  lemma DeadlineIsLateEnough(a: Alarm)
    requires a.readAt <= a.setAt
    ensures a.target - NS_PER_US < a.Deadline()
  {
    DelayIsClose(a.target, a.readAt);
  }

  /** Re-arming for the same target after a deadline that came early gives one that does not. */
  lemma SecondDeadlineSuffices(first: Alarm, second: Alarm)
    requires first.readAt <= first.setAt && first.Deadline() <= second.readAt <= second.setAt
    requires second.target == first.target
    ensures first.target < second.Deadline()
  {
    DeadlineIsLateEnough(first);
    DelayIsClose(second.target, second.readAt);
  }
}
