/** The countdown printer: `formatDiffToTimecode` and `padZeros`. */
module Timecode {
  import opened JsValues
  import opened Decimal

  datatype Options = Options(
    showPlus: bool,
    showHours: bool,
    enDashAsMinus: bool,
    useSmartFloor: bool,
    useSmartHours: bool,
    minusPrefix: Option<string>,
    floorTime: bool,
    hardFloor: bool)

  const MINUTE := 60_000

  function Abs(n: int): nat {
    if n < 0 then -n else n
  }

  // -------------------------------------------------------------- what should be printed

  /** Are part seconds rounded up? */
  predicate RoundsUp(ms: int, o: Options) {
    if o.hardFloor then ms < 0 else !o.floorTime
  }

  predicate SmartlyZero(ms: int, o: Options) {
    o.useSmartFloor && Abs(ms) < 100
  }

  /** The whole seconds to print, without the sign. */
  function Seconds(ms: int, o: Options): nat {
    if SmartlyZero(ms, o) then 0
    else if RoundsUp(ms, o) then (Abs(ms) + 999) / 1000
    else Abs(ms) / 1000
  }

  predicate Negative(ms: int, o: Options) {
    ms < 0 || (o.hardFloor && Seconds(ms, o) == 0)
  }

  function Sign(ms: int, o: Options): string {
    if Negative(ms, o) then o.minusPrefix.GetOr(if o.enDashAsMinus then "\U{2013}" else "-")
    else if o.showPlus && ms > 0 then "+"
    else ""
  }

  predicate HoursShown(ms: int, o: Options) {
    o.showHours || (o.useSmartHours && Seconds(ms, o) >= 3600)
  }

  /** Does rounding up carry into the minutes? */
  predicate Carries(ms: int, o: Options) {
    RoundsUp(ms, o) && Abs(ms) % MINUTE > 59_000
  }

  /** With the hours hidden, minutes go on beyond 59, except where a carry has wrapped them around. */
  function HiddenMinutes(ms: int, o: Options): nat {
    var minutes := Seconds(ms, o) / 60;
    if Carries(ms, o) then minutes % 60 else minutes
  }

  function Digits(ms: int, o: Options): string {
    var t := Seconds(ms, o);
    if HoursShown(ms, o) then PadZeros(t / 3600, 2) + ":" + PadZeros(t / 60 % 60, 2) + ":" + PadZeros(t % 60, 2)
    else PadZeros(HiddenMinutes(ms, o), 2) + ":" + PadZeros(t % 60, 2)
  }

  // ------------------------------------------------------------------------- the printer

  /** Rounds the rest of a minute up, and carries where that makes a whole one. */
  method CeilSeconds(milliseconds: nat, smartlyZero: bool, hoursBefore: nat, minutesBefore: nat)
    returns (hours: nat, minutes: nat, secondsRest: nat)
    ensures !smartlyZero && milliseconds % MINUTE > 59_000 ==>
              secondsRest == 0 && minutes == (minutesBefore + 1) % 60
              && hours == if minutesBefore + 1 >= 60 then hoursBefore + 1 else hoursBefore
    ensures smartlyZero || milliseconds % MINUTE <= 59_000 ==>
              minutes == minutesBefore && hours == hoursBefore
              && secondsRest == if smartlyZero then 0 else (milliseconds % MINUTE + 999) / 1000
  {
    hours, minutes := hoursBefore, minutesBefore;
    secondsRest := if smartlyZero then 0 else (milliseconds % MINUTE + 999) / 1000;
    // 60 seconds are one more minute, and 60 minutes one more hour
    var overflow := secondsRest % 60;
    if overflow != secondsRest {
      secondsRest := overflow;
      minutes := minutes + 1;
      overflow := minutes % 60;
      if overflow != minutes {
        minutes := overflow;
        hours := hours + 1;
      }
    }
  }

  /** Rounded up, the seconds are those of the whole minutes and those of the rest. */
  lemma SecondsSplit(a: nat)
    ensures a / 1000 == a / MINUTE * 60 + a % MINUTE / 1000 && a % MINUTE / 1000 < 60
    ensures (a + 999) / 1000 == a / MINUTE * 60 + (a % MINUTE + 999) / 1000
    ensures (a % MINUTE + 999) / 1000 <= 60 && ((a % MINUTE + 999) / 1000 == 60 <==> a % MINUTE > 59_000)
  {
    assert a == a / MINUTE * MINUTE + a % MINUTE;
  }

  /** Seconds taken apart into whole minutes and a rest. */
  lemma MinutesAndRest(t: nat, minutes: nat, rest: nat)
    requires t == minutes * 60 + rest && rest < 60
    ensures t / 60 == minutes && t % 60 == rest && t / 3600 == minutes / 60
  {
  }

  lemma NextMinute(minutes: nat)
    ensures (minutes + 1) / 60 == minutes / 60 + if minutes % 60 == 59 then 1 else 0
    ensures (minutes + 1) % 60 == if minutes % 60 == 59 then 0 else minutes % 60 + 1
  {
  }

  /** The whole minutes and the rest that the seconds to print amount to. */
  lemma SecondsAre(ms: int, o: Options)
    ensures var t, whole := Seconds(ms, o), Abs(ms) / MINUTE;
            if SmartlyZero(ms, o) then t == whole == 0 && !Carries(ms, o)
            else if Carries(ms, o) then t / 60 == whole + 1 && t % 60 == 0 && t / 3600 == (whole + 1) / 60
            else
              && t / 60 == whole && t / 3600 == whole / 60
              && t % 60 == if RoundsUp(ms, o) then (Abs(ms) % MINUTE + 999) / 1000 else Abs(ms) % MINUTE / 1000
  {
    SecondsSplit(Abs(ms));
    var t, whole := Seconds(ms, o), Abs(ms) / MINUTE;
    if SmartlyZero(ms, o) {
      assert Abs(ms) % MINUTE == Abs(ms);
    } else if Carries(ms, o) {
      MinutesAndRest(t, whole + 1, 0);
    } else {
      MinutesAndRest(t, whole, t - whole * 60);
    }
  }

  /** Takes the rest of the last minute, rounded one way or the other. */
  method RoundRest(ms: int, o: Options, hoursBefore: nat, minutesBefore: nat)
    returns (hours: nat, minutes: nat, secondsRest: nat)
    ensures !SmartlyZero(ms, o) && Carries(ms, o) ==>
              secondsRest == 0 && minutes == (minutesBefore + 1) % 60
              && hours == if minutesBefore + 1 >= 60 then hoursBefore + 1 else hoursBefore
    ensures SmartlyZero(ms, o) || !Carries(ms, o) ==>
              minutes == minutesBefore && hours == hoursBefore
              && secondsRest == if SmartlyZero(ms, o) then 0
                                else if RoundsUp(ms, o) then (Abs(ms) % MINUTE + 999) / 1000
                                else Abs(ms) % MINUTE / 1000
  {
    var isNegative := ms < 0;
    var milliseconds: nat := Abs(ms);
    hours, minutes := hoursBefore, minutesBefore;
    var smartlyZero := o.useSmartFloor && milliseconds < 100;
    if !o.hardFloor {
      if o.floorTime {
        secondsRest := if smartlyZero then 0 else milliseconds % MINUTE / 1000;
      } else {
        hours, minutes, secondsRest := CeilSeconds(milliseconds, smartlyZero, hours, minutes);
      }
    } else {
      if !isNegative {
        secondsRest := if smartlyZero then 0 else milliseconds % MINUTE / 1000;
      } else {
        hours, minutes, secondsRest := CeilSeconds(milliseconds, smartlyZero, hours, minutes);
      }
    }
  }

  /** The time as hours, minutes and seconds; the minutes are those within the hour if hours are shown. */
  method SplitTime(ms: int, o: Options) returns (hours: nat, minutes: nat, secondsRest: nat)
    ensures secondsRest == Seconds(ms, o) % 60
    ensures o.showHours || (o.useSmartHours && hours > 0) <==> HoursShown(ms, o)
    ensures HoursShown(ms, o) ==> hours == Seconds(ms, o) / 3600 && minutes == Seconds(ms, o) / 60 % 60
    ensures !HoursShown(ms, o) ==> minutes == HiddenMinutes(ms, o)
    ensures hours == 0 && minutes == 0 && secondsRest == 0 <==> Seconds(ms, o) == 0
  {
    minutes := Abs(ms) / MINUTE;
    hours := minutes / 60;
    SecondsAre(ms, o);
    NextMinute(minutes);
    if o.showHours || (o.useSmartHours && hours > 0) {
      minutes := minutes % 60;
    }
    hours, minutes, secondsRest := RoundRest(ms, o, hours, minutes);
  }

  method FormatDiffToTimecode(ms: int, o: Options) returns (r: string)
    ensures r == Sign(ms, o) + Digits(ms, o)
  {
    var isNegative := ms < 0;
    var hours, minutes, secondsRest := SplitTime(ms, o);
    // with a hard floor, what is printed as zero counts as negative
    if o.hardFloor && hours == 0 && minutes == 0 && secondsRest == 0 {
      isNegative := true;
    }
    var sign := "";
    if isNegative {
      sign := if o.minusPrefix.Some? then o.minusPrefix.value else if o.enDashAsMinus then "\U{2013}" else "-";
    } else if o.showPlus && Abs(ms) > 0 {
      sign := "+";
    }
    r := PadZeros(minutes, 2) + ":" + PadZeros(secondsRest, 2);
    if o.showHours || (o.useSmartHours && hours > 0) {
      r := PadZeros(hours, 2) + ":" + r;
      assert r == Digits(ms, o);
    }
    r := sign + r;
  }

  // ---------------------------------------------------------------------- reading it back

  /** Reads a clock from left to right: digits extend the last field, and a colon counts all before it
      in sixties. */
  ghost function Fields(s: string): (nat, nat) {
    if s == [] then (0, 0)
    else
      var (before, field) := Fields(s[..|s|-1]);
      var c := s[|s|-1];
      if IsDigit(c) then (before, field * 10 + DigitValue(c)) else ((before + field) * 60, 0)
  }

  ghost function ReadClock(s: string): nat {
    Fields(s).0 + Fields(s).1
  }

  lemma {:induction false} ReadDigits(s: string, d: string)
    requires AllDigits(d) && Fields(s).1 == 0
    ensures Fields(s + d) == (Fields(s).0, FromDecimal(d))
  {
    if d == [] {
      assert s + d == s;
    } else {
      ReadDigits(s, d[..|d|-1]);
      assert (s + d)[..|s + d| - 1] == s + d[..|d|-1];
    }
  }

  lemma ReadField(s: string, n: nat)
    requires Fields(s).1 == 0
    ensures Fields(s + PadZeros(n, 2)) == (Fields(s).0, n)
    ensures Fields(s + PadZeros(n, 2) + ":") == ((Fields(s).0 + n) * 60, 0)
  {
    PadZerosValue(n, 2);
    ReadDigits(s, PadZeros(n, 2));
    var r := s + PadZeros(n, 2);
    assert (r + ":")[..|r|] == r;
  }

  lemma ReadTwo(m: nat, s: nat)
    ensures ReadClock(PadZeros(m, 2) + ":" + PadZeros(s, 2)) == m * 60 + s
  {
    ReadField("", m);
    assert "" + PadZeros(m, 2) == PadZeros(m, 2);
    ReadField(PadZeros(m, 2) + ":", s);
  }

  lemma ReadThree(h: nat, m: nat, s: nat)
    ensures ReadClock(PadZeros(h, 2) + ":" + PadZeros(m, 2) + ":" + PadZeros(s, 2)) == (h * 60 + m) * 60 + s
  {
    ReadField("", h);
    assert "" + PadZeros(h, 2) == PadZeros(h, 2);
    ReadField(PadZeros(h, 2) + ":", m);
    ReadField(PadZeros(h, 2) + ":" + PadZeros(m, 2) + ":", s);
  }

  /** The printed digits read back as the seconds to print, unless the hours are hidden, rounding up
      carries, and there are 59 minutes or more. */
  lemma TimecodeIsFaithful(ms: int, o: Options)
    ensures ReadClock(Digits(ms, o)) == Seconds(ms, o) <==>
              || o.showHours || o.useSmartHours
              || !RoundsUp(ms, o) || Abs(ms) % MINUTE <= 59_000 || Abs(ms) < 59 * MINUTE
  {
    var t := Seconds(ms, o);
    SecondsAre(ms, o);
    ReadThree(t / 3600, t / 60 % 60, t % 60);
    ReadTwo(HiddenMinutes(ms, o), t % 60);
    assert t == t / 60 * 60 + t % 60 && t / 60 == t / 3600 * 60 + t / 60 % 60;
  }

  /** An hour, fifteen minutes and half a second before the next minute: printed as a quarter past. */
  lemma HiddenHoursLoseAnHour() returns (ms: int, o: Options)
    ensures !HoursShown(ms, o) && Seconds(ms, o) == 4560 && ReadClock(Digits(ms, o)) == 960
  {
    ms, o := 4_559_500, Options(false, false, false, false, false, None, false, false);
    assert Seconds(ms, o) == 4560 && HiddenMinutes(ms, o) == 16;
    ReadTwo(16, 0);
  }

  /** What the seconds to print are worth: the next or the last whole second of the distance from 0, or,
      with a hard floor, the last whole second before the signed time. */
  lemma SecondsMean(ms: int, o: Options)
    requires !SmartlyZero(ms, o)
    ensures var t := Seconds(ms, o);
            && (RoundsUp(ms, o) ==> (t - 1) * 1000 < Abs(ms) <= t * 1000)
            && (!RoundsUp(ms, o) ==> t * 1000 <= Abs(ms) < (t + 1) * 1000)
            && (o.hardFloor ==> (if ms < 0 then 0 - t else t) == ms / 1000)
  {
  }

  // ----------------------------------------------------------------------------- the sign

  predicate IsMinus(c: char) {
    c == '-' || c == '\U{2013}'
  }

  /** Which times get a minus and which a plus: with a hard floor, all that is printed as zero counts as
      negative. A prefix of the caller's own stands in for the minus, and only for that. */
  lemma SignShows(ms: int, o: Options)
    ensures var negative := ms < 0 || (o.hardFloor && ms < 1000);
            && (negative && o.minusPrefix.Some? ==> Sign(ms, o) == o.minusPrefix.value)
            && (negative && o.minusPrefix.None? ==> |Sign(ms, o)| == 1 && IsMinus(Sign(ms, o)[0]))
            && (!negative ==> Sign(ms, o) == if o.showPlus && ms > 0 then "+" else "")
            && (negative && o.minusPrefix.None? ==> (Sign(ms, o) == "-" <==> !o.enDashAsMinus))
  {
  }

  /** Reads a time with a sign of one character, or none. */
  ghost function ReadSigned(s: string): int {
    if s == [] then 0
    else if IsMinus(s[0]) then 0 - ReadClock(s[1..])
    else if s[0] == '+' then ReadClock(s[1..])
    else ReadClock(s)
  }

  /** The time in whole seconds: a short one is zero with the smart floor; otherwise the last whole second before
      it with the hard floor, that nearer to zero with the other one, and that farther from zero without. */
  function WholeSeconds(ms: int, o: Options): int {
    if o.useSmartFloor && -100 < ms < 100 then 0
    else if o.hardFloor then ms / 1000
    else if o.floorTime then (if ms < 0 then -(-ms / 1000) else ms / 1000)
    else (if ms < 0 then -((999 - ms) / 1000) else (ms + 999) / 1000)
  }

  lemma SignedSeconds(ms: int, o: Options)
    ensures WholeSeconds(ms, o) == if Negative(ms, o) then 0 - Seconds(ms, o) else Seconds(ms, o)
  {
  }

  lemma DigitsBeginWithDigit(ms: int, o: Options)
    ensures Digits(ms, o) != [] && IsDigit(Digits(ms, o)[0])
  {
    var n := if HoursShown(ms, o) then Seconds(ms, o) / 3600 else HiddenMinutes(ms, o);
    PadZerosValue(n, 2);
    assert Digits(ms, o)[0] == PadZeros(n, 2)[0];
  }

  /** The whole of what is printed, with the signs of the printer, reads back as that many seconds, except where
      hidden hours lose one. */
  lemma PrintedReadsBack(ms: int, o: Options)
    requires o.minusPrefix.None?
    ensures ReadSigned(Sign(ms, o) + Digits(ms, o)) == WholeSeconds(ms, o) <==>
              || o.showHours || o.useSmartHours
              || !RoundsUp(ms, o) || Abs(ms) % MINUTE <= 59_000 || Abs(ms) < 59 * MINUTE
  {
    TimecodeIsFaithful(ms, o);
    SignedSeconds(ms, o);
    DigitsBeginWithDigit(ms, o);
    SignShows(ms, o);
    var r := Sign(ms, o) + Digits(ms, o);
    if Sign(ms, o) != [] {
      assert r[1..] == Digits(ms, o);
    } else {
      assert r == Digits(ms, o);
    }
  }

  lemma TwoDigits(n: nat)
    requires n < 100
    ensures |PadZeros(n, 2)| == 2
  {
    var s := ToDecimal(n);
    if n >= 10 {
      assert |ToDecimal(n / 10)| == 1;
    } else {
      assert Padded(s, 2) == Padded("0" + s, 2) == "0" + s;
    }
  }

  /** With the hours shown, minutes and seconds are two digits each that read less than 60. */
  lemma FieldsInRange(ms: int, o: Options)
    requires HoursShown(ms, o)
    ensures var d := Digits(ms, o);
            && |d| >= 8 && d[|d|-3] == d[|d|-6] == ':'
            && AllDigits(d[|d|-2..]) && FromDecimal(d[|d|-2..]) < 60
            && AllDigits(d[|d|-5..|d|-3]) && FromDecimal(d[|d|-5..|d|-3]) < 60
  {
    var t, d := Seconds(ms, o), Digits(ms, o);
    TwoDigits(t / 60 % 60);
    TwoDigits(t % 60);
    PadZerosValue(t / 60 % 60, 2);
    PadZerosValue(t % 60, 2);
    assert d[|d|-2..] == PadZeros(t % 60, 2);
    assert d[|d|-5..|d|-3] == PadZeros(t / 60 % 60, 2);
  }
}
