/** The duration helpers of `src/lib/utils/duration.ts` and
    `src/lib/utils.ts`: rounding seconds up to whole minutes, the length
    of a call between two time stamps, and the two `formatDuration`
    renderings (`1m 30s`). Seconds are whole numbers here and time stamps
    are milliseconds; JavaScript's `Math.floor`, `Math.ceil` and
    sign-following `%` are written out. */
module Durations {
  import opened Wrappers
  import opened Decimal
  import Ordering

  /** `Math.ceil(n / d)` for a positive divisor. */
  function CeilDiv(n: int, d: nat): (q: int)
    requires d > 0
    ensures d * (q - 1) < n <= d * q
  {
    (n + d - 1) / d
  }

  /** `secondsToMinutes`: the fewest whole minutes that cover the seconds. */
  function SecondsToMinutes(seconds: int): (m: int)
    ensures 60 * (m - 1) < seconds <= 60 * m
    ensures seconds <= 0 ==> m <= 0
    ensures seconds > 0 ==> m > 0
  {
    CeilDiv(seconds, 60)
  }

  /** More seconds never bill fewer minutes. */
  lemma SecondsToMinutesMonotone(a: int, b: int)
    requires a <= b
    ensures SecondsToMinutes(a) <= SecondsToMinutes(b)
  {
  }

  /** A whole number of minutes converts exactly. */
  lemma SecondsToMinutesExact(m: int)
    ensures SecondsToMinutes(60 * m) == m
  {
  }

  /** `calculateDurationInSeconds`: the whole seconds, rounded up, between
      two time stamps given in milliseconds. */
  function DurationInSeconds(startMs: int, endMs: int): (s: int)
    ensures 1000 * (s - 1) < endMs - startMs <= 1000 * s
  {
    CeilDiv(endMs - startMs, 1000)
  }

  /** A call that ends after it starts lasts at least a second; one that
      ends when it starts lasts none. */
  lemma DurationSign(startMs: int, endMs: int)
    ensures endMs > startMs ==> DurationInSeconds(startMs, endMs) >= 1
    ensures endMs == startMs ==> DurationInSeconds(startMs, endMs) == 0
  {
  }

  /** `seconds % 60` on whole numbers: the remainder has the sign of
      `seconds`. */
  function RemSixty(seconds: int): (r: int)
    ensures seconds >= 0 ==> r == seconds % 60
    ensures seconds < 0 ==> -60 < r <= 0 && (seconds - r) % 60 == 0
  {
    if seconds >= 0 then seconds % 60 else -((-seconds) % 60)
  }

  /** `formatDuration` of `duration.ts`: minutes alone on a whole minute,
      otherwise minutes and seconds. */
  function FormatDuration(seconds: int): (r: string)
    ensures |r| >= 2
    ensures r[|r| - 1] == 'm' <==> seconds % 60 == 0
  {
    var minutes := seconds / 60;
    var remaining := RemSixty(seconds);
    if remaining == 0 then IntToString(minutes) + "m"
    else IntToString(minutes) + "m " + IntToString(remaining) + "s"
  }

  /** `formatDuration` of `utils.ts`: `0s` for zero, otherwise always
      minutes and seconds. */
  function FormatDurationLong(seconds: int): (r: string)
    ensures seconds == 0 ==> r == "0s"
  {
    if seconds == 0 then "0s"
    else IntToString(seconds / 60) + "m " + IntToString(RemSixty(seconds)) + "s"
  }

  predicate IsMinuteMark(c: char) {
    c == 'm'
  }

  /** Reads a text of the form `<minutes>m` or `<minutes>m <seconds>s`
      back into seconds; `None` for any other text. */
  function ReadDuration(text: string): (r: Option<nat>)
  {
    match Ordering.FirstIndex(text, IsMinuteMark)
    case None => None
    case Some(k) =>
      var mins := text[..k];
      var rest := text[k + 1..];
      if mins == "" || !AllDigits(mins) then None
      else if rest == "" then Some(60 * ParseDigits(mins))
      else if |rest| < 3 || rest[0] != ' ' || rest[|rest| - 1] != 's' then None
      else
        var secs := rest[1..|rest| - 1];
        if AllDigits(secs) then Some(60 * ParseDigits(mins) + ParseDigits(secs)) else None
  }

  /** The first `m` of a label follows the minutes' digits. */
  lemma MinuteMarkAfterDigits(digits: string, tail: string)
    requires AllDigits(digits)
    ensures Ordering.FirstIndex(digits + "m" + tail, IsMinuteMark) == Some(|digits|)
  {
    var text := digits + "m" + tail;
    var found := Ordering.FirstIndex(text, IsMinuteMark);
    assert IsMinuteMark(text[|digits|]);
    assert found.Some? && found.value <= |digits|;
  }

  /** The reader takes a text apart at its first `m`. */
  lemma ReadLabel(m: nat, tail: string)
    requires tail == "" || (|tail| >= 3 && tail[0] == ' ' && tail[|tail| - 1] == 's' && AllDigits(tail[1..|tail| - 1]))
    ensures var text := NatToString(m) + "m" + tail;
            ReadDuration(text) ==
              if tail == "" then Some(60 * m) else Some(60 * m + ParseDigits(tail[1..|tail| - 1]))
  {
    var digits := NatToString(m);
    var text := digits + "m" + tail;
    MinuteMarkAfterDigits(digits, tail);
    assert text[..|digits|] == digits;
    assert text[|digits| + 1..] == tail;
    ParseNatToString(m);
  }

  /** The seconds part of a text reads back as the remainder. */
  lemma SecondsTail(r: nat)
    ensures var tail := SecondsPart(r);
            |tail| >= 3 && tail[0] == ' ' && tail[|tail| - 1] == 's'
            && tail[1..|tail| - 1] == NatToString(r)
            && ParseDigits(tail[1..|tail| - 1]) == r
  {
    var tail := SecondsPart(r);
    assert tail[1..|tail| - 1] == NatToString(r);
    ParseNatToString(r);
  }

  /** The seconds part written by both renderings. */
  function SecondsPart(r: nat): string {
    " " + NatToString(r) + "s"
  }

  lemma FormatDurationParts(seconds: nat)
    ensures seconds % 60 == 0 ==> FormatDuration(seconds) == NatToString(seconds / 60) + "m" + ""
    ensures seconds % 60 != 0 ==> FormatDuration(seconds) == NatToString(seconds / 60) + "m" + SecondsPart(seconds % 60)
    ensures seconds != 0 ==> FormatDurationLong(seconds) == NatToString(seconds / 60) + "m" + SecondsPart(seconds % 60)
  {
  }

  /** `formatDuration` of `duration.ts` loses nothing on a non-negative
      duration: its text reads back as the same number of seconds. */
  lemma FormatDurationRoundTrip(seconds: nat)
    ensures ReadDuration(FormatDuration(seconds)) == Some(seconds)
  {
    var m, r := seconds / 60, seconds % 60;
    assert seconds == 60 * m + r;
    FormatDurationParts(seconds);
    var text := FormatDuration(seconds);
    if r == 0 {
      ReadLabel(m, "");
      assert ReadDuration(text) == Some(60 * m);
    } else {
      SecondsTail(r);
      ReadLabel(m, SecondsPart(r));
      assert ReadDuration(text) == Some(60 * m + r);
    }
  }

  /** So does the `utils.ts` rendering, apart from zero, which it writes
      as `0s`. */
  lemma FormatDurationLongRoundTrip(seconds: nat)
    requires seconds > 0
    ensures ReadDuration(FormatDurationLong(seconds)) == Some(seconds)
  {
    var m, r := seconds / 60, seconds % 60;
    assert seconds == 60 * m + r;
    FormatDurationParts(seconds);
    SecondsTail(r);
    ReadLabel(m, SecondsPart(r));
    assert ReadDuration(FormatDurationLong(seconds)) == Some(60 * m + r);
  }

  /** The two renderings differ only on whole minutes, where `duration.ts`
      leaves the seconds out. */
  lemma FormatDurationsAgree(seconds: nat)
    requires seconds % 60 != 0
    ensures FormatDuration(seconds) == FormatDurationLong(seconds)
  {
  }

  /** A negative duration has both parts negative: the minutes are floored
      while the remainder keeps the sign. */
  lemma FormatDurationNegative()
    ensures FormatDuration(-30) == "-1m -30s"
  {
    assert IntToString(-1) == "-1" && IntToString(-30) == "-30";
  }

  /** `formatDateTime`: a missing or zero time stamp shows as empty text;
      any other is rendered by the locale formatter, which is a
      parameter. */
  function FormatDateTime(date: Option<int>, render: int -> string): (r: string)
    ensures date.None? || date == Some(0) ==> r == ""
    ensures date.Some? && date.value != 0 ==> r == render(date.value)
  {
    if date.None? || date.value == 0 then "" else render(date.value)
  }
}
