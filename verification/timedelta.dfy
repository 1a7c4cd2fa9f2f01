/** Python's `str(timedelta(seconds=n))` for a whole number of seconds, which the
    plugin uses to fill the `*_formatted` template variables. */
module Timedelta {
  import opened Decimal

  /** A duration normalised the way `timedelta` stores it: any sign sits in the
      day count, the time of day is always between 0:00:00 and 23:59:59. */
  datatype Clock = Clock(days: int, hours: nat, minutes: nat, seconds: nat)

  function Normalise(total: int): (c: Clock)
    ensures c.hours < 24 && c.minutes < 60 && c.seconds < 60
    ensures total == c.days * 86400 + c.hours * 3600 + c.minutes * 60 + c.seconds
  {
    var rem := total % 86400;
    Clock(total / 86400, rem / 3600, rem % 3600 / 60, rem % 60)
  }

  /** `H:MM:SS`, the hour unpadded. */
  function ClockText(c: Clock): string
    requires c.minutes < 60 && c.seconds < 60
  {
    NatText(c.hours) + ":" + Pad2(c.minutes) + ":" + Pad2(c.seconds)
  }

  /** The largest day count a `timedelta` can hold, in either direction. */
  const MAX_DAYS: int := 999999999

  /** Whether `timedelta(seconds=total)` exists; outside this range the constructor
      raises `OverflowError`. */
  predicate Representable(total: int) {
    -MAX_DAYS <= Normalise(total).days <= MAX_DAYS
  }

  /** The `D day(s), ` part: empty when the day count is zero, singular exactly when
      it is 1 or -1. */
  function DayPrefix(days: int): string {
    if days == 0 then ""
    else IntText(days) + " day" + (if days == 1 || days == -1 then "" else "s") + ", "
  }

  /** `str(timedelta(seconds=total))`: the day part, then the time of day. The text
      ends in `MM:SS`, which reads back as the minutes and seconds of the normal form. */
  function Text(total: int): (t: string)
    ensures |t| >= 7 && t[|t| - 6] == ':' && t[|t| - 3] == ':'
    ensures AllDigits(t[|t| - 5..|t| - 3]) && AllDigits(t[|t| - 2..])
    ensures ParseDigits(t[|t| - 5..|t| - 3]) == Normalise(total).minutes
    ensures ParseDigits(t[|t| - 2..]) == Normalise(total).seconds
  {
    ClockTextWithDays(Normalise(total))
  }

  /** The text of a normal form: the day part, then `H:MM:SS`. */
  function ClockTextWithDays(c: Clock): (t: string)
    requires c.minutes < 60 && c.seconds < 60
    ensures |t| >= 7 && t[|t| - 6] == ':' && t[|t| - 3] == ':'
    ensures AllDigits(t[|t| - 5..|t| - 3]) && AllDigits(t[|t| - 2..])
    ensures ParseDigits(t[|t| - 5..|t| - 3]) == c.minutes
    ensures ParseDigits(t[|t| - 2..]) == c.seconds
  {
    EndsWithClock(DayPrefix(c.days), c);
    DayPrefix(c.days) + ClockText(c)
  }

  /** Whatever precedes it, the clock text leaves `:MM:SS` at the end. */
  lemma EndsWithClock(p: string, c: Clock)
    requires c.minutes < 60 && c.seconds < 60
    ensures var t := p + ClockText(c);
            && |t| >= 7 && t[|t| - 6] == ':' && t[|t| - 3] == ':'
            && t[|t| - 5..|t| - 3] == Pad2(c.minutes) && t[|t| - 2..] == Pad2(c.seconds)
            && AllDigits(t[|t| - 5..|t| - 3]) && AllDigits(t[|t| - 2..])
            && ParseDigits(t[|t| - 5..|t| - 3]) == c.minutes && ParseDigits(t[|t| - 2..]) == c.seconds
  {
    var t := p + ClockText(c);
    var tail := ":" + Pad2(c.minutes) + ":" + Pad2(c.seconds);
    assert t == (p + NatText(c.hours)) + tail;
    assert t[|t| - 6..] == tail;
    assert t[|t| - 5..|t| - 3] == Pad2(c.minutes);
    assert t[|t| - 2..] == Pad2(c.seconds);
  }

  /** Reads `H:MM:SS` back into seconds. */
  function ParseClock(t: string): int
    requires |t| >= 7 && AllDigits(t[..|t| - 6]) && AllDigits(t[|t| - 5..|t| - 3]) && AllDigits(t[|t| - 2..])
  {
    ParseDigits(t[..|t| - 6]) * 3600 + ParseDigits(t[|t| - 5..|t| - 3]) * 60 + ParseDigits(t[|t| - 2..])
  }

  /** A time of day with no day part prints as `H:MM:SS` and reads back as the same
      number of seconds. */
  lemma ClockRoundTrip(c: Clock)
    requires c.days == 0 && c.minutes < 60 && c.seconds < 60
    ensures var t := ClockTextWithDays(c);
      && AllDigits(t[..|t| - 6])
      && ParseClock(t) == c.hours * 3600 + c.minutes * 60 + c.seconds
  {
    var h := NatText(c.hours);
    var t := ClockTextWithDays(c);
    assert t == h + ":" + Pad2(c.minutes) + ":" + Pad2(c.seconds);
    assert t[..|t| - 6] == h;
  }

  /** Within one day the text carries no day part and reads back as the same
      number of seconds. */
  lemma TextWithinDayRoundTrip(total: int)
    requires 0 <= total < 86400
    ensures var t := Text(total);
      && |t| >= 7 && AllDigits(t[..|t| - 6]) && AllDigits(t[|t| - 5..|t| - 3]) && AllDigits(t[|t| - 2..])
      && ParseClock(t) == total
  {
    var c := Normalise(total);
    assert c.days == 0;
    ClockRoundTrip(c);
  }
}
