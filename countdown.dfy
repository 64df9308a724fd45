/** The countdown shown on an auction: the time left to its start or end,
    split into days, hours, minutes and seconds, the "ending soon" flag, the
    end callback, and the two-digit formatting of each unit. */
module Countdown {
  import opened Types
  import opened Text

  datatype TimeLeft = TimeLeft(days: int, hours: int, minutes: int, seconds: int)

  const Zero := TimeLeft(0, 0, 0, 0)
  const EndingWindow := 300000

  /** The time the countdown runs to. */
  function Target(a: Auction): int
  {
    if a.status == Upcoming then a.startTime else a.endTime
  }

  /** The split of a positive difference in milliseconds. */
  function Split(diff: int): TimeLeft
    requires diff > 0
  {
    TimeLeft(diff / 86400000, (diff / 3600000) % 24, (diff / 60000) % 60, (diff / 1000) % 60)
  }

  /** The countdown's state: what it shows and whether it is flagged as
      ending soon. */
  datatype View = View(timeLeft: TimeLeft, isEnding: bool)

  /** One tick of the countdown at `now`: the new view and whether `onEnd`
      fires. An ended auction shows zeros and does not tick; at or past the
      target the view shows zeros, keeps its flag, and `onEnd` fires for an
      active auction. */
  function Tick(prev: View, a: Auction, now: int): (View, bool)
  {
    if a.status == Ended then (prev.(timeLeft := Zero), false)
    else
      var diff := Target(a) - now;
      if diff <= 0 then (prev.(timeLeft := Zero), a.status == Active)
      else (View(Split(diff), a.status == Active && diff <= EndingWindow), false)
  }

  /** For a positive difference the units are in range and add up to the
      whole seconds left. */
  lemma SplitSpec(diff: int)
    requires diff > 0
    ensures var t := Split(diff);
      && t.days >= 0 && 0 <= t.hours < 24 && 0 <= t.minutes < 60 && 0 <= t.seconds < 60
      && t.days * 86400 + t.hours * 3600 + t.minutes * 60 + t.seconds == diff / 1000
  {
    var s := diff / 1000;
    var m := s / 60;
    var h := m / 60;
    var d := h / 24;
    assert diff == 1000 * s + diff % 1000;
    assert s == 60 * m + s % 60;
    assert m == 60 * h + m % 60;
    assert h == 24 * d + h % 24;
    assert diff == 60000 * m + (1000 * (s % 60) + diff % 1000);
    assert diff / 60000 == m;
    assert diff == 3600000 * h + (60000 * (m % 60) + 1000 * (s % 60) + diff % 1000);
    assert diff / 3600000 == h;
    assert diff == 86400000 * d + (3600000 * (h % 24) + 60000 * (m % 60) + 1000 * (s % 60) + diff % 1000);
    assert diff / 86400000 == d;
  }

  /** The view after a tick: zeros for an ended auction and at or past the
      target; otherwise the split of the time left, flagged exactly when the
      auction is active and at most five minutes remain. `onEnd` fires exactly
      when an active auction reaches its end. */
  lemma TickSpec(prev: View, a: Auction, now: int)
    ensures var (v, fired) := Tick(prev, a, now);
      && (a.status == Ended || Target(a) <= now ==> v.timeLeft == Zero && v.isEnding == prev.isEnding)
      && (a.status != Ended && Target(a) > now ==>
            && v.timeLeft.days * 86400 + v.timeLeft.hours * 3600 + v.timeLeft.minutes * 60 + v.timeLeft.seconds
               == (Target(a) - now) / 1000
            && (v.isEnding <==> a.status == Active && Target(a) - now <= EndingWindow))
      && (fired <==> a.status == Active && a.endTime <= now)
  {
    if a.status != Ended && Target(a) > now {
      SplitSpec(Target(a) - now);
    }
  }

  /** `value.toString().padStart(2, '0')`. */
  function FormatUnit(v: int): string
  {
    var s := IntToString(v);
    if |s| >= 2 then s else "0" + s
  }

  lemma DecimalLength(n: nat)
    ensures n < 10 <==> |Decimal(n)| == 1
  {
    if n >= 10 {
      assert Decimal(n) == Decimal(n / 10) + [DigitChar(n % 10)];
    }
  }

  /** A single digit gets a leading zero; longer numbers are unchanged. */
  lemma FormatUnitSpec(v: int)
    ensures 0 <= v < 10 ==> FormatUnit(v) == "0" + Decimal(v) && |FormatUnit(v)| == 2
    ensures v >= 10 ==> FormatUnit(v) == Decimal(v)
  {
    if v >= 0 {
      DecimalLength(v);
    }
  }

  /** The units shown: days only when positive, then hours, minutes and seconds. */
  function Shown(t: TimeLeft): seq<string>
  {
    (if t.days > 0 then [IntToString(t.days) + "d"] else [])
    + [FormatUnit(t.hours) + "h", FormatUnit(t.minutes) + "m", FormatUnit(t.seconds) + "s"]
  }

  /** Less than a day left shows three units, each two digits and a letter;
      a day or more adds the day count in front. */
  lemma ShownSpec(diff: int)
    requires diff > 0
    ensures diff < 86400000 ==> |Shown(Split(diff))| == 3
    ensures diff >= 86400000 ==> |Shown(Split(diff))| == 4 && Shown(Split(diff))[0] == IntToString(diff / 86400000) + "d"
    ensures var u := Shown(Split(diff)); forall k :: |u| - 3 <= k < |u| ==> |u[k]| == 3
  {
    SplitSpec(diff);
    var t := Split(diff);
    FormatUnitSpec(t.hours);
    FormatUnitSpec(t.minutes);
    FormatUnitSpec(t.seconds);
    DecimalLength(t.hours);
    DecimalLength(t.minutes);
    DecimalLength(t.seconds);
    TwoDigits(t.hours);
    TwoDigits(t.minutes);
    TwoDigits(t.seconds);
  }

  lemma TwoDigits(v: int)
    requires 0 <= v < 60
    ensures |FormatUnit(v)| == 2
  {
    DecimalLength(v);
    if v >= 10 {
      assert Decimal(v) == Decimal(v / 10) + [DigitChar(v % 10)];
      DecimalLength(v / 10);
    }
  }
}
