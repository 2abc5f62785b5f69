/** The maintenance page (app/maintenance/page.tsx): a countdown to an end
    time 24 hours after the page is mounted, ticking once a second and
    shown as HH:MM:SS while time remains. Times are integer milliseconds;
    the clock readings are inputs. */
module Maintenance {
  import opened Text

  const HourMs := 60 * 60 * 1000
  const MinuteMs := 60 * 1000
  const SecondMs := 1000
  const DayMs := 24 * HourMs

  /** `Math.floor((t / (1000 * 60 * 60)) % 24)`, for a time that is not
      negative. */
  function Hours(t: nat): (h: int)
    ensures 0 <= h < 24
  {
    (t / HourMs) % 24
  }

  /** `Math.floor((t / (1000 * 60)) % 60)`. */
  function Minutes(t: nat): (m: int)
    ensures 0 <= m < 60
  {
    (t / MinuteMs) % 60
  }

  /** `Math.floor((t / 1000) % 60)`. */
  function Seconds(t: nat): (s: int)
    ensures 0 <= s < 60
  {
    (t / SecondMs) % 60
  }

  /** The three fields and the milliseconds put back together give the time
      within its day: no field overlaps another. */
  lemma FieldsRebuildTime(t: nat)
    ensures Hours(t) * HourMs + Minutes(t) * MinuteMs + Seconds(t) * SecondMs + t % SecondMs == t % DayMs
  {
    SecondsWithinMinute(t);
    MinutesWithinHour(t);
    HoursWithinDay(t);
  }

  lemma SecondsWithinMinute(t: nat)
    ensures t % MinuteMs == ((t / SecondMs) % 60) * SecondMs + t % SecondMs
  {
    var a, b := t / 1000, t % 1000;
    assert t == 60000 * (a / 60) + (1000 * (a % 60) + b);
    assert 0 <= 1000 * (a % 60) + b < 60000;
  }

  lemma MinutesWithinHour(t: nat)
    ensures t % HourMs == ((t / MinuteMs) % 60) * MinuteMs + t % MinuteMs
  {
    var a, b := t / 60000, t % 60000;
    assert t == 3600000 * (a / 60) + (60000 * (a % 60) + b);
    assert 0 <= 60000 * (a % 60) + b < 3600000;
  }

  lemma HoursWithinDay(t: nat)
    ensures t % DayMs == ((t / HourMs) % 24) * HourMs + t % HourMs
  {
    var a, b := t / 3600000, t % 3600000;
    assert t == 86400000 * (a / 24) + (3600000 * (a % 24) + b);
    assert 0 <= 3600000 * (a % 24) + b < 86400000;
  }

  /** `String(v).padStart(2, '0')`. */
  function TwoDigits(v: int): (r: string)
    requires 0 <= v < 100
    ensures |r| == 2 && '0' <= r[0] <= '9' && '0' <= r[1] <= '9'
    ensures DigitsValue(r) == v
  {
    var r := PadStart(Decimal(v), 2, '0');
    if v < 10 then
      assert Decimal(v) == [DigitChar(v)];
      assert r == ['0', DigitChar(v)];
      assert r[..1] == ['0'];
      assert ['0'][..0] == [];
      r
    else
      DigitsRoundTrip(v);
      assert |Digits(v)| == 2 by {
        assert Digits(v) == Digits(v / 10) + [DigitChar(v % 10)];
      }
      r
  }

  /** The countdown text HH:MM:SS. */
  function Display(t: nat): (r: string)
    ensures |r| == 8 && r[2] == ':' && r[5] == ':'
    ensures DigitsValue(r[0..2]) == Hours(t) && DigitsValue(r[3..5]) == Minutes(t) && DigitsValue(r[6..8]) == Seconds(t)
  {
    var hh, mm, ss := TwoDigits(Hours(t)), TwoDigits(Minutes(t)), TwoDigits(Seconds(t));
    ClockSlices(hh, mm, ss);
    hh + ":" + mm + ":" + ss
  }

  lemma ClockSlices(hh: string, mm: string, ss: string)
    requires |hh| == 2 && |mm| == 2 && |ss| == 2
    ensures var r := hh + ":" + mm + ":" + ss;
            |r| == 8 && r[2] == ':' && r[5] == ':' && r[0..2] == hh && r[3..5] == mm && r[6..8] == ss
  {
    var r := hh + ":" + mm + ":" + ss;
    assert r[0..2] == hh;
    assert r[3..5] == mm;
    assert r[6..8] == ss;
  }

  /** `timeRemaining > 0 && (...)`: the countdown is rendered only while
      time remains. */
  predicate ShowsCountdown(timeRemaining: int) {
    timeRemaining > 0
  }

  /** The interval callback's new value: 0 once the end time is reached,
      otherwise the distance to it. */
  function Remaining(endTime: int, now: int): (r: int)
    ensures r >= 0
    ensures r > 0 <==> now < endTime
    ensures r > 0 ==> r == endTime - now
  {
    var distance := endTime - now;
    if distance <= 0 then 0 else distance
  }

  /** The page's `timeRemaining` state and its interval timer. */
  class Countdown {
    const endTime: int
    var timeRemaining: int
    var running: bool

    /** A stopped timer has set the time to 0; the time is never negative. */
    ghost predicate Valid()
      reads this
    {
      timeRemaining >= 0 && (!running ==> timeRemaining == 0)
    }

    /** Mounting: `useState(0)`, then the effect fixes the end time 24 hours
        after `mountedAt` and starts the timer. */
    constructor (mountedAt: int)
      ensures endTime == mountedAt + DayMs && timeRemaining == 0 && running && Valid()
    {
      endTime := mountedAt + DayMs;
      timeRemaining := 0;
      running := true;
    }

    /** One run of the interval callback at clock reading `now`; the timer
        is cleared once the distance is no longer positive. */
    method Tick(now: int)
      requires running && Valid()
      modifies this
      ensures timeRemaining == Remaining(endTime, now)
      ensures running <==> now < endTime
      ensures Valid()
    {
      var distance := endTime - now;
      if distance <= 0 {
        timeRemaining := 0;
        running := false;
      } else {
        timeRemaining := distance;
      }
    }
  }

  /** While the timer runs the countdown shows, and when it stops it
      disappears. */
  lemma ShownWhileRunning(endTime: int, now: int)
    ensures ShowsCountdown(Remaining(endTime, now)) <==> now < endTime
  {
  }

  /** Within the first day after mounting the display reads the exact time
      left: the hour field does not wrap. */
  lemma DisplayWithinADay(t: nat)
    requires t < DayMs
    ensures Hours(t) == t / HourMs
  {
    assert t / HourMs < 24;
  }
}
