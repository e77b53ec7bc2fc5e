/** The digital timer widget: an elapsed-milliseconds counter advanced by one
    update interval per tick, its "[h:]mm:ss" display, and the three colour
    bands computed from two thresholds. The counter is an integer number of
    milliseconds. */
module DigitalTimer {
  import opened JsBuiltins

  const MsPerSec := 1000
  const MsPerMin := 60000
  const MsPerHour := 3600000

  /** `Math.floor(counter / MS_PER_HOUR)`: Dafny's division by a positive
      divisor already rounds down. */
  function Hours(counter: int): int
  {
    counter / MsPerHour
  }

  /** `Math.floor((counter % MS_PER_HOUR) / MS_PER_MIN)`, with the
      sign-of-dividend remainder. */
  function Minutes(counter: int): int
  {
    JsRem(counter, MsPerHour) / MsPerMin
  }

  /** `Math.floor((counter % MS_PER_MIN) / MS_PER_SEC)`. */
  function Seconds(counter: int): int
  {
    JsRem(counter, MsPerMin) / MsPerSec
  }

  /** For a non-negative counter the three parts are a clock reading: minutes
      and seconds below 60, and together they account for every whole second
      of the counter. */
  lemma TimeParts(counter: int)
    requires counter >= 0
    ensures Hours(counter) >= 0
    ensures 0 <= Minutes(counter) < 60 && 0 <= Seconds(counter) < 60
    ensures var whole := Hours(counter) * MsPerHour + Minutes(counter) * MsPerMin + Seconds(counter) * MsPerSec;
            whole <= counter < whole + MsPerSec
  {
    var h := counter / MsPerHour;
    var rest := counter % MsPerHour;
    var m := rest / MsPerMin;
    var r := rest % MsPerMin;
    assert counter == h * 60 * MsPerMin + m * MsPerMin + r;
    assert counter % MsPerMin == r;
    assert Seconds(counter) == r / MsPerSec;
  }

  /** The displayed hours, minutes and seconds are the counter's whole
      seconds, read back. */
  lemma {:induction false} TimePartsInSeconds(counter: int)
    requires counter >= 0
    ensures Hours(counter) * 3600 + Minutes(counter) * 60 + Seconds(counter) == counter / MsPerSec
  {
    TimeParts(counter);
    var secs := Hours(counter) * 3600 + Minutes(counter) * 60 + Seconds(counter);
    assert secs * MsPerSec <= counter < secs * MsPerSec + MsPerSec;
  }

  /** `` `${n}`.padStart(2, '0') ``. */
  function TwoDigits(n: int): string
  {
    PadStart(IntToString(n), 2, '0')
  }

  /** `` hours > 0 ? `${hours}:`.padStart(3, '0') : "" ``. */
  function HoursPrefix(hours: int): string
  {
    if hours > 0 then PadStart(IntToString(hours) + ":", 3, '0') else ""
  }

  /** `` `${minutesString}:${secondsString}` ``. */
  function MinutesSeconds(counter: int): string
  {
    TwoDigits(Minutes(counter)) + ":" + TwoDigits(Seconds(counter))
  }

  /** The `time` string a tick writes for `counter`. */
  function TimeString(counter: int): string
  {
    HoursPrefix(Hours(counter)) + MinutesSeconds(counter)
  }

  /** Minutes and seconds always take two digits each and read back as the
      counter's minutes and seconds. */
  lemma MinutesSecondsShape(counter: int)
    requires counter >= 0
    ensures var mm := TwoDigits(Minutes(counter));
            var ss := TwoDigits(Seconds(counter));
            |mm| == 2 && |ss| == 2 && IsDigits(mm) && IsDigits(ss)
            && DigitsValue(mm) == Minutes(counter) && DigitsValue(ss) == Seconds(counter)
  {
    TimeParts(counter);
    PadTwoDigits(Minutes(counter));
    PadTwoDigits(Seconds(counter));
  }

  /** Under an hour the display is "mm:ss". */
  lemma {:induction false} TimeStringUnderAnHour(counter: int)
    requires 0 <= counter < MsPerHour
    ensures var t := TimeString(counter);
            |t| == 5 && t[2] == ':' && IsDigits(t[..2]) && IsDigits(t[3..])
            && DigitsValue(t[..2]) == Minutes(counter) && DigitsValue(t[3..]) == Seconds(counter)
  {
    MinutesSecondsShape(counter);
    assert HoursPrefix(Hours(counter)) == "";
    assert TimeString(counter) == MinutesSeconds(counter);
    ColonJoin(TwoDigits(Minutes(counter)), TwoDigits(Seconds(counter)));
  }

  /** Two two-character parts joined by a colon, and where to find them. */
  lemma ColonJoin(mm: string, ss: string)
    requires |mm| == 2 && |ss| == 2
    ensures var t := mm + ":" + ss;
            |t| == 5 && t[2] == ':' && t[..2] == mm && t[3..] == ss
  {
  }

  /** A positive hour count shows as its digits and a colon, a single digit
      padded with a zero. */
  lemma HoursPrefixShape(h: int)
    requires h >= 1
    ensures h < 10 ==> HoursPrefix(h) == ['0', DigitChar(h), ':']
    ensures h >= 10 ==> HoursPrefix(h) == NatToString(h) + ":"
  {
    var s := IntToString(h) + ":";
    if h < 10 {
      assert IntToString(h) == [DigitChar(h)];
      assert s == [DigitChar(h), ':'];
    } else {
      assert |NatToString(h)| >= 2;
    }
  }

  lemma HoursFromAnHour(counter: int)
    requires counter >= MsPerHour
    ensures Hours(counter) >= 1
  {
  }

  lemma MinutesSecondsLength(counter: int)
    requires counter >= 0
    ensures |MinutesSeconds(counter)| == 5
  {
    MinutesSecondsShape(counter);
  }

  /** From an hour on, the hours and a colon come first, padded to three
      characters, and "mm:ss" follows. */
  lemma {:induction false} TimeStringHours(counter: int)
    requires counter >= MsPerHour
    ensures var h := Hours(counter);
            && h >= 1 && |MinutesSeconds(counter)| == 5
            && TimeString(counter) == HoursPrefix(h) + MinutesSeconds(counter)
            && (h < 10 ==> HoursPrefix(h) == ['0', DigitChar(h), ':'])
            && (h >= 10 ==> HoursPrefix(h) == NatToString(h) + ":")
  {
    HoursFromAnHour(counter);
    MinutesSecondsLength(counter);
    HoursPrefixShape(Hours(counter));
  }

  /** The computed `timerOkay`. */
  function TimerOkay(colorCode: bool, counter: int, maxOkayTime: int): bool
  {
    colorCode && counter <= maxOkayTime
  }

  /** The computed `timerDanger`. */
  function TimerDanger(colorCode: bool, counter: int, maxWarnTime: int): bool
  {
    colorCode && counter > maxWarnTime
  }

  /** The computed `timerWarn` as written: the chained comparison compares
      the boolean `maxOkayTime < counter`, as 0 or 1, with `maxWarnTime`. */
  function TimerWarnAsWritten(colorCode: bool, counter: int, maxOkayTime: int, maxWarnTime: int): (warn: bool)
    ensures maxWarnTime >= 1 ==> (warn <==> colorCode)
    ensures maxWarnTime < 0 ==> !warn
  {
    colorCode && (if maxOkayTime < counter then 1 else 0) <= maxWarnTime
  }

  /** With the default thresholds, a 30-second and a 2-minute counter are
      both in the warn band as written, alongside okay and danger. */
  lemma TimerWarnAsWrittenOverlaps()
    ensures TimerWarnAsWritten(true, 30000, 60000, 90000) && TimerOkay(true, 30000, 60000)
    ensures TimerWarnAsWritten(true, 120000, 60000, 90000) && TimerDanger(true, 120000, 90000)
  {
  }

  /** The warn band as evidently intended: above the okay threshold and at
      most the warn threshold. */
  function TimerWarn(colorCode: bool, counter: int, maxOkayTime: int, maxWarnTime: int): (warn: bool)
    ensures warn <==> colorCode && !TimerOkay(colorCode, counter, maxOkayTime) && !TimerDanger(colorCode, counter, maxWarnTime)
  {
    colorCode && maxOkayTime < counter <= maxWarnTime
  }

  /** With colour coding on and ordered thresholds, every counter is in
      exactly one band; with it off, in none. */
  lemma ColorBands(colorCode: bool, counter: int, maxOkayTime: int, maxWarnTime: int)
    requires maxOkayTime <= maxWarnTime
    ensures var okay := TimerOkay(colorCode, counter, maxOkayTime);
            var warn := TimerWarn(colorCode, counter, maxOkayTime, maxWarnTime);
            var danger := TimerDanger(colorCode, counter, maxWarnTime);
            && (colorCode ==> (okay || warn || danger))
            && !(okay && warn) && !(warn && danger) && !(okay && danger)
            && (!colorCode ==> !okay && !warn && !danger)
  {
  }

  /** The bands move one way as the counter grows: once warn, never okay
      again; once danger, never warn or okay again. */
  lemma ColorBandsMonotone(colorCode: bool, c1: int, c2: int, maxOkayTime: int, maxWarnTime: int)
    requires c1 <= c2
    ensures TimerDanger(colorCode, c1, maxWarnTime) ==> TimerDanger(colorCode, c2, maxWarnTime)
    ensures !TimerOkay(colorCode, c1, maxOkayTime) && colorCode ==> !TimerOkay(colorCode, c2, maxOkayTime)
  {
  }

  /** The component's state: its props and the fields a tick writes. */
  class Timer {
    const maxOkayTime: int
    const maxWarnTime: int
    const updateInterval: int
    const colorCodeTimer: bool
    var counter: int
    var time: Option<string>
    var timeout: Option<int>

    constructor(maxOkayTime: int, maxWarnTime: int, updateInterval: int, colorCodeTimer: bool)
      ensures this.maxOkayTime == maxOkayTime && this.maxWarnTime == maxWarnTime
      ensures this.updateInterval == updateInterval && this.colorCodeTimer == colorCodeTimer
      ensures counter == 0 && time.None? && timeout.None?
    {
      this.maxOkayTime := maxOkayTime;
      this.maxWarnTime := maxWarnTime;
      this.updateInterval := updateInterval;
      this.colorCodeTimer := colorCodeTimer;
      counter := 0;
      time := None;
      timeout := None;
    }

    /** `mounted`: start from the milliseconds elapsed since `counterStart`,
        then tick once. */
    method Mount(elapsed: int)
      modifies this
      ensures counter == elapsed + updateInterval
      ensures updateInterval == 0 ==> time == old(time) && timeout.None?
      ensures updateInterval != 0 ==> time == Some(TimeString(counter)) && timeout == Some(updateInterval)
    {
      counter := elapsed;
      TimerTick();
    }

    /** `timerTick`: cancel the pending tick, advance the counter, and unless
        the interval is zero write the display and schedule the next tick. */
    method TimerTick()
      modifies this
      ensures counter == old(counter) + updateInterval
      ensures updateInterval == 0 ==> time == old(time) && timeout.None?
      ensures updateInterval != 0 ==> time == Some(TimeString(counter)) && timeout == Some(updateInterval)
    {
      timeout := None;
      counter := counter + updateInterval;
      if updateInterval == 0 {
        return;
      }
      var hours := Hours(counter);
      var minutes := Minutes(counter);
      var seconds := Seconds(counter);
      var hoursString := if hours > 0 then PadStart(IntToString(hours) + ":", 3, '0') else "";
      var minutesString := PadStart(IntToString(minutes), 2, '0');
      var secondsString := PadStart(IntToString(seconds), 2, '0');
      var display := hoursString + minutesString + ":" + secondsString;
      assert display == hoursString + (minutesString + ":" + secondsString);
      time := Some(display);
      timeout := Some(updateInterval);
    }

    /** `timerOkay` on the current counter: never without colour coding, and
        with ordered thresholds never alongside warn or danger. */
    function Okay(): (okay: bool)
      reads this
      ensures okay ==> colorCodeTimer
      ensures okay && maxOkayTime <= maxWarnTime ==>
                !TimerWarn(colorCodeTimer, counter, maxOkayTime, maxWarnTime) && !TimerDanger(colorCodeTimer, counter, maxWarnTime)
    {
      TimerOkay(colorCodeTimer, counter, maxOkayTime)
    }

    /** `timerWarn` on the current counter, in its corrected form: coloured
        and in neither of the other two bands. */
    function Warn(): (warn: bool)
      reads this
      ensures warn <==> colorCodeTimer && !Okay() && !Danger()
    {
      TimerWarn(colorCodeTimer, counter, maxOkayTime, maxWarnTime)
    }

    /** `timerDanger` on the current counter: never without colour coding,
        and with ordered thresholds never alongside okay or warn. */
    function Danger(): (danger: bool)
      reads this
      ensures danger ==> colorCodeTimer
      ensures danger && maxOkayTime <= maxWarnTime ==>
                !TimerOkay(colorCodeTimer, counter, maxOkayTime) && !TimerWarn(colorCodeTimer, counter, maxOkayTime, maxWarnTime)
    {
      TimerDanger(colorCodeTimer, counter, maxWarnTime)
    }
  }
}
