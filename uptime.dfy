/** The uptime text of all three front-ends: `datetime.now() - boot_time` is a `timedelta`,
    normalised to whole days, seconds within the day (0..86399) and microseconds, and shown
    as days, `seconds // 3600` hours and `(seconds // 60) % 60` minutes. */
module Uptime {

  const MICROS_PER_SECOND: int := 1000000
  const SECONDS_PER_DAY: int := 86400

  datatype Uptime = Uptime(days: int, hours: int, minutes: int)

  /** Whole seconds of a difference given in microseconds (rounded down, as `timedelta` does). */
  function WholeSeconds(micros: int): int
  {
    micros / MICROS_PER_SECOND
  }

  /** The displayed fields for the instants `now` and `boot`, both in microseconds. Dafny's
      `/` and `%` on a positive divisor round down, as Python's `//` and `%` and the
      `timedelta` normalisation do. */
  function Decompose(nowMicros: int, bootMicros: int): (u: Uptime)
    ensures 0 <= u.hours < 24 && 0 <= u.minutes < 60
    ensures var s := WholeSeconds(nowMicros - bootMicros);
      u.days * SECONDS_PER_DAY + u.hours * 3600 + u.minutes * 60 <= s
      < u.days * SECONDS_PER_DAY + u.hours * 3600 + u.minutes * 60 + 60
  {
    var delta := nowMicros - bootMicros;
    var days := delta / (SECONDS_PER_DAY * MICROS_PER_SECOND);
    var seconds := (delta % (SECONDS_PER_DAY * MICROS_PER_SECOND)) / MICROS_PER_SECOND;
    Uptime(days, seconds / 3600, (seconds / 60) % 60)
  }

  /** The decomposition is exact: two instants give the same display exactly when their
      difference falls in the same whole minute. */
  lemma {:induction false} SameMinuteSameDisplay(now1: int, boot1: int, now2: int, boot2: int)
    ensures Decompose(now1, boot1) == Decompose(now2, boot2)
      <==> WholeSeconds(now1 - boot1) / 60 == WholeSeconds(now2 - boot2) / 60
  {
    var u1, u2 := Decompose(now1, boot1), Decompose(now2, boot2);
    var s1, s2 := WholeSeconds(now1 - boot1), WholeSeconds(now2 - boot2);
    var m1 := u1.days * 1440 + u1.hours * 60 + u1.minutes;
    var m2 := u2.days * 1440 + u2.hours * 60 + u2.minutes;
    assert s1 / 60 == m1;
    assert s2 / 60 == m2;
    if m1 == m2 {
      MinutesDetermineFields(u1, u2);
    }
  }

  lemma MinutesDetermineFields(u1: Uptime, u2: Uptime)
    requires 0 <= u1.hours < 24 && 0 <= u1.minutes < 60
    requires 0 <= u2.hours < 24 && 0 <= u2.minutes < 60
    requires u1.days * 1440 + u1.hours * 60 + u1.minutes == u2.days * 1440 + u2.hours * 60 + u2.minutes
    ensures u1 == u2
  {
    var r1 := u1.hours * 60 + u1.minutes;
    var r2 := u2.hours * 60 + u2.minutes;
    assert 0 <= r1 < 1440 && 0 <= r2 < 1440;
    assert u1.days == u2.days;
    assert u1.hours == u2.hours;
  }
}
