/** The Eid countdown on the home page (src/pages/Home.tsx): once a second
    the time left until Eid, in milliseconds, is split into days, hours,
    minutes and seconds; when Eid has come the timer stops. */
module Home {

  const MillisPerSecond := 1000
  const MillisPerMinute := 60000
  const MillisPerHour := 3600000
  const MillisPerDay := 86400000

  datatype TimeLeft = TimeLeft(days: nat, hours: nat, minutes: nat, seconds: nat)

  /** The milliseconds a countdown reading stands for. */
  function Millis(t: TimeLeft): nat
  {
    t.days * MillisPerDay + t.hours * MillisPerHour + t.minutes * MillisPerMinute + t.seconds * MillisPerSecond
  }

  /** A reading whose hours, minutes and seconds are within a day, an hour
      and a minute. */
  predicate InRange(t: TimeLeft)
  {
    t.hours < 24 && t.minutes < 60 && t.seconds < 60
  }

  /** `q` and `r` are the quotient and remainder of `n` by `d`. */
  lemma DivModUnique(n: nat, d: nat, q: nat, r: nat)
    requires d > 0 && n == q * d + r && r < d
    ensures n / d == q && n % d == r
  {
    var k := q - n / d;
    assert k * d == n % d - r;
    MultipleAtLeastFactor(k, d);
  }

  /** A non-zero multiple of `d` is at least `d` away from 0. */
  lemma {:induction false} MultipleAtLeastFactor(k: int, d: nat)
    ensures k > 0 ==> k * d >= d
    ensures k < 0 ==> k * d + d <= 0
    decreases if k < 0 then -k else k
  {
    if k > 1 {
      MultipleAtLeastFactor(k - 1, d);
      assert k * d == (k - 1) * d + d;
    } else if k < -1 {
      MultipleAtLeastFactor(k + 1, d);
      assert k * d == (k + 1) * d - d;
    }
  }

  /** The countdown's split of `difference` milliseconds, as the timer
      computes it. */
  function Decompose(difference: nat): (t: TimeLeft)
    ensures InRange(t)
    ensures Millis(t) <= difference < Millis(t) + MillisPerSecond
  {
    var t := TimeLeft(difference / MillisPerDay,
                      (difference % MillisPerDay) / MillisPerHour,
                      (difference % MillisPerHour) / MillisPerMinute,
                      (difference % MillisPerMinute) / MillisPerSecond);
    RecomposeBound(difference);
    t
  }

  /** Each unit's remainder splits into the next unit and its remainder. */
  lemma RecomposeBound(d: nat)
    ensures (d % MillisPerDay) / MillisPerHour < 24
    ensures (d % MillisPerHour) / MillisPerMinute < 60
    ensures (d % MillisPerMinute) / MillisPerSecond < 60
    ensures d / MillisPerDay * MillisPerDay + (d % MillisPerDay) / MillisPerHour * MillisPerHour +
            (d % MillisPerHour) / MillisPerMinute * MillisPerMinute +
            (d % MillisPerMinute) / MillisPerSecond * MillisPerSecond <= d
    ensures d < d / MillisPerDay * MillisPerDay + (d % MillisPerDay) / MillisPerHour * MillisPerHour +
                (d % MillisPerHour) / MillisPerMinute * MillisPerMinute +
                (d % MillisPerMinute) / MillisPerSecond * MillisPerSecond + MillisPerSecond
  {
    var days, dayRest := d / MillisPerDay, d % MillisPerDay;
    var hours, r1 := dayRest / MillisPerHour, dayRest % MillisPerHour;
    assert dayRest == hours * MillisPerHour + r1;
    DivModUnique(d, MillisPerHour, days * 24 + hours, r1);
    var minutes, r2 := r1 / MillisPerMinute, r1 % MillisPerMinute;
    assert r1 == minutes * MillisPerMinute + r2;
    DivModUnique(d, MillisPerMinute, (days * 24 + hours) * 60 + minutes, r2);
    var seconds := r2 / MillisPerSecond;
    assert r2 == seconds * MillisPerSecond + r2 % MillisPerSecond;
  }

  /** A reading within range is recovered from any instant inside the second
      it stands for: the split and `Millis` are inverse. */
  lemma DecomposeRecovers(t: TimeLeft, extra: nat)
    requires InRange(t) && extra < MillisPerSecond
    ensures Decompose(Millis(t) + extra) == t
  {
    var d := Millis(t) + extra;
    var dayRest := t.hours * MillisPerHour + t.minutes * MillisPerMinute + t.seconds * MillisPerSecond + extra;
    var hourRest := t.minutes * MillisPerMinute + t.seconds * MillisPerSecond + extra;
    var minuteRest := t.seconds * MillisPerSecond + extra;
    DivModUnique(d, MillisPerDay, t.days, dayRest);
    DivModUnique(dayRest, MillisPerHour, t.hours, hourRest);
    DivModUnique(d, MillisPerHour, t.days * 24 + t.hours, hourRest);
    DivModUnique(hourRest, MillisPerMinute, t.minutes, minuteRest);
    DivModUnique(d, MillisPerMinute, (t.days * 24 + t.hours) * 60 + t.minutes, minuteRest);
    DivModUnique(minuteRest, MillisPerSecond, t.seconds, extra);
  }

  /** The countdown's state: the reading shown and whether the one-second
      timer still runs. The Eid instant is the local midnight of 17 June
      2025, given as milliseconds since the epoch. */
  class Countdown {
    const eid: int
    var timeLeft: TimeLeft
    var running: bool

    /** The first render: all zeros, the timer started. */
    constructor (eidMillis: int)
      ensures eid == eidMillis && timeLeft == TimeLeft(0, 0, 0, 0) && running
    {
      eid := eidMillis;
      timeLeft := TimeLeft(0, 0, 0, 0);
      running := true;
    }

    /** One timer tick at the instant `now`: once Eid has come the timer is
        cleared and the reading kept, otherwise the reading becomes the time
        left. */
    method Tick(now: int)
      requires running
      modifies this
      ensures eid - now <= 0 ==> !running && timeLeft == old(timeLeft)
      ensures eid - now > 0 ==> running && timeLeft == Decompose(eid - now)
      ensures eid - now > 0 ==> InRange(timeLeft) && Millis(timeLeft) <= eid - now < Millis(timeLeft) + 1000
    {
      var difference := eid - now;
      if difference <= 0 {
        running := false;
        return;
      }
      var days := difference / MillisPerDay;
      var hours := (difference % MillisPerDay) / MillisPerHour;
      var minutes := (difference % MillisPerHour) / MillisPerMinute;
      var seconds := (difference % MillisPerMinute) / MillisPerSecond;
      timeLeft := TimeLeft(days, hours, minutes, seconds);
    }
  }
}
