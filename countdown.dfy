/** The countdown shown beside an order being prepared: minutes and seconds
    left until its ready time, refreshed every second until both reach zero,
    when the timer stops and reports the end once. Times are whole
    milliseconds; the clock reading is a parameter. */
module Countdown {
  datatype TimeLeft = TimeLeft(minutes: int, seconds: int)

  const ZERO: TimeLeft := TimeLeft(0, 0)

  /** Splitting milliseconds into minutes and leftover seconds. */
  lemma {:induction false} MinutesAndSeconds(d: int)
    requires d >= 0
    ensures d / 60000 == (d / 1000) / 60
    ensures (d / 60000) * 60 + (d / 1000) % 60 == d / 1000
  {
    var q, r := d / 60000, d % 60000;
    assert d == 60000 * q + r && 0 <= r < 60000;
    assert d / 1000 == 60 * q + r / 1000 by {
      assert d == 1000 * (60 * q + r / 1000) + r % 1000;
    }
    assert 0 <= r / 1000 < 60;
  }

  /** `calculateTimeLeft()`: nothing left once the target has passed; otherwise
      the whole minutes, uncapped, and the seconds past them. */
  function CalculateTimeLeft(target: int, now: int): (t: TimeLeft)
    ensures target - now <= 0 ==> t == ZERO
    ensures t.minutes >= 0 && 0 <= t.seconds < 60
    ensures target - now > 0 ==> t.minutes == (target - now) / 60000
    ensures target - now > 0 ==> t.minutes * 60 + t.seconds == (target - now) / 1000
    ensures t == ZERO <==> target - now < 1000
  {
    var d := target - now;
    if d > 0 then
      MinutesAndSeconds(d);
      TimeLeft(d / 60000, (d / 1000) % 60)
    else ZERO
  }

  /** A later reading never shows more time left. */
  lemma {:induction false} TimeLeftMonotone(target: int, now: int, later: int)
    requires now <= later
    ensures var a := CalculateTimeLeft(target, now);
            var b := CalculateTimeLeft(target, later);
            b.minutes * 60 + b.seconds <= a.minutes * 60 + a.seconds
  {
    var a := CalculateTimeLeft(target, now);
    var b := CalculateTimeLeft(target, later);
    if target - later > 0 {
      assert target - later <= target - now;
      assert (target - later) / 1000 <= (target - now) / 1000;
    }
  }

  /** The mounted `CountdownTimer`: what it shows, whether its interval still
      runs, and how often it has reported the end. */
  class CountdownTimer {
    const target: int
    var shown: TimeLeft
    var running: bool
    var ended: nat

    ghost predicate Valid()
      reads this
    {
      (running ==> ended == 0) && (!running ==> ended == 1 && shown == ZERO)
    }

    /** The first render shows the time left; the interval starts. */
    constructor (target: int, now: int)
      ensures Valid() && this.target == target
      ensures shown == CalculateTimeLeft(target, now) && running && ended == 0
    {
      this.target := target;
      shown := CalculateTimeLeft(target, now);
      running := true;
      ended := 0;
    }

    /** One interval tick: show the new time left; at zero, stop the interval
        and report the end. */
    method Tick(now: int)
      requires Valid() && running
      modifies this
      ensures Valid()
      ensures shown == CalculateTimeLeft(target, now)
      ensures running <==> now <= target - 1000
      ensures ended == (if running then 0 else 1)
    {
      var t := CalculateTimeLeft(target, now);
      shown := t;
      if t.minutes == 0 && t.seconds == 0 {
        running := false;
        ended := ended + 1;
      }
    }
  }
}
