/** The staffing view's component logic: temperature conversion, name and
    shift-time display helpers, the date keyword of a roster request, and
    the `loading`/`error`/`roster`/`timeout` fields that `staff` and
    `autoupdate` drive. The swim-lane view reuses the helpers that its
    script repeats character for character. */
module TelestaffView {
  import opened JsBuiltins
  import opened StaffingRules
  import opened TelestaffUtils
  import opened Scheduling

  /** `convertC2F`. */
  function ConvertC2F(c: real): (f: real)
    ensures 5.0 * f == 9.0 * c + 160.0
  {
    (9.0 * c + 160.0) / 5.0
  }

  /** The conversion is the Celsius-to-Fahrenheit line: freezing, boiling
      and the crossing point. */
  lemma ConvertC2FPoints()
    ensures ConvertC2F(0.0) == 32.0
    ensures ConvertC2F(100.0) == 212.0
    ensures ConvertC2F(-40.0) == -40.0
  {
  }

  /** Converting back recovers the Celsius value, and a warmer day reads
      warmer. */
  lemma ConvertC2FInverse(c: real, d: real)
    ensures (ConvertC2F(c) - 32.0) * 5.0 / 9.0 == c
    ensures c < d ==> ConvertC2F(c) < ConvertC2F(d)
  {
  }

  /** `workingPositions`: the filter's result is dropped and every position
      list counts as working. */
  function WorkingPositions(positions: seq<StaffRecord>): (r: bool)
    ensures r
  {
    true
  }

  /** `formatRank`: the icon of the position's rank. */
  function FormatRank(position: string): (icon: string)
    ensures icon in {"user-md", "star", "car", "fire"}
    ensures exists i :: 0 <= i < |RankMappings| && GetRank(position) == Some(RankMappings[i]) && icon == RankMappings[i].icon
  {
    var m := GetRank(position).value;
    var i :| 0 <= i < |RankMappings| && RankMappings[i] == m;
    assert i in {0, 1, 2, 3};
    m.icon
  }

  predicate SingleLine(s: string)
  {
    forall i :: 0 <= i < |s| ==> !IsLineTerminator(s[i])
  }

  /** `name.replace(/\(.*$/g, "")`: `.` stops at line terminators and `$`
      matches only at the very end, so the one match runs from the first '('
      that has no line terminator after it to the end of the string. */
  function CutParen(s: string): (r: string)
    ensures |r| <= |s| && r == s[..|r|]
    ensures SingleLine(s) ==> '(' !in r
    ensures '(' !in s ==> r == s
  {
    if s == [] then []
    else if s[0] == '(' && SingleLine(s[1..]) then []
    else
      var rest := CutParen(s[1..]);
      assert SingleLine(s) ==> SingleLine(s[1..]);
      [s[0]] + rest
  }

  /** `formatName`: the name without the parenthesised suffix, trimmed. */
  function FormatName(name: string): (r: string)
    ensures SingleLine(name) ==> '(' !in r
    ensures r != [] ==> !IsJsSpace(r[0]) && !IsJsSpace(r[|r| - 1])
  {
    var cut := CutParen(name);
    var r := Trim(cut);
    assert SingleLine(name) ==> '(' !in r by {
      if SingleLine(name) && '(' in r { TrimKeeps(cut, '('); }
    }
    r
  }

  /** On one line, everything from the first '(' on is dropped. */
  lemma {:induction false} CutParenAtFirst(a: string, b: string)
    requires '(' !in a && SingleLine(b)
    ensures CutParen(a + "(" + b) == a
  {
    if a == [] {
      assert (a + "(" + b)[1..] == b;
    } else {
      assert (a + "(" + b)[1..] == a[1..] + "(" + b;
      CutParenAtFirst(a[1..], b);
    }
  }

  /** "Smith, John (FF)" style names keep the part before the '('. */
  lemma FormatNameDropsSuffix(a: string, b: string)
    requires '(' !in a && SingleLine(b)
    ensures FormatName(a + "(" + b) == Trim(a)
  {
    CutParenAtFirst(a, b);
  }

  /** A name without a '(' is only trimmed. */
  lemma FormatNamePlain(name: string)
    requires '(' !in name
    ensures FormatName(name) == Trim(name)
  {
  }

  datatype Icon = NoIcon | Sun | Moon

  /** The object `formatTime` returns. */
  datatype TimeDisplay = TimeDisplay(isIcon: bool, icon: Icon, text: string)

  const FullDay := "07:00 - 07:00"
  const DayShift := "07:00 - 19:00"
  const NightShift := "19:00 - 07:00"

  function TimeText(start: string, end: string): string
  {
    start + " - " + end
  }

  /** `formatTime`, on the two already formatted times: a full 24-hour tour
      shows nothing, the day and night halves show a sun or a moon beside the
      text, anything else is plain text. */
  function FormatTime(start: string, end: string): (d: TimeDisplay)
    ensures d.isIcon <==> d.icon != NoIcon
    ensures TimeText(start, end) == FullDay ==> d == TimeDisplay(false, NoIcon, "")
    ensures TimeText(start, end) == DayShift ==> d == TimeDisplay(true, Sun, DayShift)
    ensures TimeText(start, end) == NightShift ==> d == TimeDisplay(true, Moon, NightShift)
    ensures TimeText(start, end) !in {FullDay, DayShift, NightShift} ==> d == TimeDisplay(false, NoIcon, TimeText(start, end))
  {
    var text := TimeText(start, end);
    if text == FullDay then TimeDisplay(false, NoIcon, "")
    else if text == DayShift then TimeDisplay(true, Sun, text)
    else if text == NightShift then TimeDisplay(true, Moon, text)
    else TimeDisplay(false, NoIcon, text)
  }

  /** The three special pairs of times. */
  lemma FormatTimePairs()
    ensures FormatTime("07:00", "07:00") == TimeDisplay(false, NoIcon, "")
    ensures FormatTime("07:00", "19:00") == TimeDisplay(true, Sun, "07:00 - 19:00")
    ensures FormatTime("19:00", "07:00") == TimeDisplay(true, Moon, "19:00 - 07:00")
  {
  }

  /** Which roster a request asks for: a day relative to today, or the date
      string as given. */
  datatype DateRequest = DeltaDay(delta: int) | OnDate(date: string)

  /** The `date` expression of `loadRoster`. */
  function RosterDate(date: string): (r: DateRequest)
    ensures date == "tomorrow" ==> r == DeltaDay(1)
    ensures date == "yesterday" ==> r == DeltaDay(-1)
    ensures date != "tomorrow" && date != "yesterday" ==> r == OnDate(date)
  {
    if date == "tomorrow" then DeltaDay(1)
    else if date == "yesterday" then DeltaDay(-1)
    else OnDate(date)
  }

  /** The component: its props and the fields `staff` sets. `timeout` is the
      delay of the pending re-poll, `None` when nothing is scheduled. */
  class StaffView {
    const station: Value
    const date: string
    const updateInterval: Value
    var loading: bool
    var roster: Option<Roster>
    var error: Option<string>
    var timeout: Option<int>

    constructor(station: Value, date: string, updateInterval: Value)
      ensures this.station == station && this.date == date && this.updateInterval == updateInterval
      ensures loading && roster.None? && error.None? && timeout.None?
    {
      this.station := station;
      this.date := date;
      this.updateInterval := updateInterval;
      loading := true;
      roster := None;
      error := None;
      timeout := None;
    }

    /** `autoupdate`: clear the pending poll and schedule the next one when
        the interval allows it. */
    method Autoupdate()
      modifies this
      ensures timeout == PollDelay(updateInterval)
      ensures loading == old(loading) && roster == old(roster) && error == old(error)
    {
      timeout := None;
      var time := PollDelay(updateInterval);
      if time.None? {
        return;
      }
      timeout := time;
    }

    /** `loadRoster`: ask for the roster of the requested date and store
        what the fetch resolves to. Returns the date it asked for. */
    method LoadRoster(reply: Result<StaffingReply>) returns (request: DateRequest)
      modifies this
      ensures request == RosterDate(date)
      ensures reply.Success? && reply.value.statusCode == StatusOk ==>
                roster == Some(Roster(GetShift(reply.value.rosterDay), station, Grouped(reply.value.records)))
      ensures reply.Failure? || reply.value.statusCode != StatusOk ==> roster.None?
      ensures loading == old(loading) && error == old(error) && timeout == old(timeout)
    {
      request := RosterDate(date);
      roster := FetchRoster(station, reply);
    }

    /** `staff`: show the spinner if asked, load, then settle. Because this
        view's `fetchRoster` swallows its errors, the load never rejects and
        `error` always ends up cleared. */
    method Staff(setLoading: bool, reply: Result<StaffingReply>)
      modifies this
      ensures !loading && error.None?
      ensures reply.Success? && reply.value.statusCode == StatusOk ==>
                roster == Some(Roster(GetShift(reply.value.rosterDay), station, Grouped(reply.value.records)))
      ensures reply.Failure? || reply.value.statusCode != StatusOk ==> roster.None?
      ensures timeout == PollDelay(updateInterval)
    {
      loading := setLoading;
      var _ := LoadRoster(reply);
      error := None;
      loading := false;
      Autoupdate();
    }
  }
}
