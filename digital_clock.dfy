/** The digital clock widget: the "all segments lit" background string
    derived from the time format when it is mounted, and the tick that
    refreshes the time and date strings and schedules the next tick. The
    current time, formatted by the date library, reaches a tick as the two
    strings it would produce. */
module DigitalClock {
  import opened JsBuiltins
  import opened Scheduling

  /** The characters of the case-insensitive class `[a-z)-9]`: a letter of
      either case, or one of `)*+,-./` and the digits. */
  predicate IsSegment(c: char)
  {
    ('a' <= c <= 'z') || ('A' <= c <= 'Z') || (')' <= c <= '9')
  }

  function MaskChar(c: char): (r: char)
    ensures IsSegment(c) ==> r == '8'
    ensures !IsSegment(c) ==> r == c
  {
    if IsSegment(c) then '8' else c
  }

  /** `timeFormat.replace(/[a-z)-9]/gim, "8")`. */
  function BackgroundString(format: string): (r: string)
    ensures |r| == |format|
    ensures forall i :: 0 <= i < |r| ==> (IsSegment(format[i]) ==> r[i] == '8')
    ensures forall i :: 0 <= i < |r| ==> (!IsSegment(format[i]) ==> r[i] == format[i])
  {
    seq(|format|, i requires 0 <= i < |format| => MaskChar(format[i]))
  }

  /** Masking a background again changes nothing: '8' is itself a segment
      character. */
  lemma {:induction false} BackgroundIdempotent(format: string)
    ensures BackgroundString(BackgroundString(format)) == BackgroundString(format)
  {
    var b := BackgroundString(format);
    var bb := BackgroundString(b);
    forall i | 0 <= i < |b|
      ensures bb[i] == b[i]
    {
      if IsSegment(format[i]) {
        assert b[i] == '8';
      }
    }
  }

  /** Every character of a background is '8' or a character the mask keeps. */
  lemma BackgroundCharacters(format: string)
    ensures forall c :: c in BackgroundString(format) ==> c == '8' || !IsSegment(c)
  {
    var b := BackgroundString(format);
    forall c | c in b
      ensures c == '8' || !IsSegment(c)
    {
      var i :| 0 <= i < |b| && b[i] == c;
    }
  }

  /** The default format "HH:mm:ss" gives "88:88:88". */
  lemma DefaultBackground(format: string)
    requires format == "HH:mm:ss"
    ensures BackgroundString(format) == "88:88:88"
  {
    var b := BackgroundString(format);
    assert b[0] == '8' && b[1] == '8' && b[2] == ':' && b[3] == '8';
    assert b[4] == '8' && b[5] == ':' && b[6] == '8' && b[7] == '8';
  }

  /** The component's props and the fields `mounted` and `clockTick` write. */
  class Clock {
    const timeFormat: string
    const dateFormat: string
    const updateInterval: Value
    var backgroundString: Option<string>
    var time: Option<string>
    var date: Option<string>
    var timeout: Option<int>

    constructor(timeFormat: string, dateFormat: string, updateInterval: Value)
      ensures this.timeFormat == timeFormat && this.dateFormat == dateFormat
      ensures this.updateInterval == updateInterval
      ensures backgroundString.None? && time.None? && date.None? && timeout.None?
    {
      this.timeFormat := timeFormat;
      this.dateFormat := dateFormat;
      this.updateInterval := updateInterval;
      backgroundString := None;
      time := None;
      date := None;
      timeout := None;
    }

    /** `mounted`: derive the background from the time format, then tick. */
    method Mounted(formattedTime: string, formattedDate: string)
      modifies this
      ensures backgroundString == Some(BackgroundString(timeFormat))
      ensures timeout == PollDelay(updateInterval)
      ensures time == (if timeout.Some? && timeFormat != "" then Some(formattedTime) else old(time))
      ensures date == (if timeout.Some? && dateFormat != "" then Some(formattedDate) else old(date))
    {
      backgroundString := Some(BackgroundString(timeFormat));
      ClockTick(formattedTime, formattedDate);
    }

    /** `clockTick`: cancel the pending tick; with an acceptable interval,
        refresh the time and the date for the formats that are set and
        schedule the next tick. */
    method ClockTick(formattedTime: string, formattedDate: string)
      modifies this
      ensures timeout == PollDelay(updateInterval)
      ensures timeout.None? ==> time == old(time) && date == old(date)
      ensures timeout.Some? ==> time == (if timeFormat != "" then Some(formattedTime) else old(time))
      ensures timeout.Some? ==> date == (if dateFormat != "" then Some(formattedDate) else old(date))
      ensures backgroundString == old(backgroundString)
    {
      timeout := None;
      var interval := PollDelay(updateInterval);
      if interval.None? {
        return;
      }
      if timeFormat != "" {
        time := Some(formattedTime);
      }
      if dateFormat != "" {
        date := Some(formattedDate);
      }
      timeout := interval;
    }
  }
}
