/** The swim-lane staffing view's component logic. Its `formatName`, the
    `formatTime` classification, `loadRoster`'s date keywords and the
    `autoupdate` guard are those of the staffing view; what differs is the
    working-position filter, the shift-time parser it formats with, the
    station name it requests and how a failed load reaches `error`. */
module TelestaffSwimView {
  import opened JsBuiltins
  import opened IncidentsUtils
  import opened TelestaffSwimUtils
  import opened TelestaffView
  import opened Scheduling

  /** `workingPositions`: the entries with `isWorking` set, in order. */
  function WorkingPositions(positions: seq<Person>): (r: seq<Person>)
    ensures forall p :: p in r <==> p in positions && p.isWorking
  {
    Working(positions)
  }

  /** The filter keeps relative order: filtering a concatenation filters
      each part. */
  lemma {:induction false} WorkingPositionsConcat(a: seq<Person>, b: seq<Person>)
    ensures WorkingPositions(a + b) == WorkingPositions(a) + WorkingPositions(b)
    decreases |b|
  {
    if b != [] {
      var b' := b[..|b| - 1];
      assert (a + b)[..|a + b| - 1] == a + b';
      assert (a + b)[|a + b| - 1] == b[|b| - 1];
      WorkingPositionsConcat(a, b');
    } else {
      assert a + b == a;
    }
  }

  /** `formatTime`: both dispatch-format times through `parseShiftTimes`,
      then the staffing view's classification. */
  function FormatShiftTime(startTime: Option<string>, endTime: Option<string>): (d: TimeDisplay)
    ensures d == FormatTime(ParseShiftTimes(startTime), ParseShiftTimes(endTime))
  {
    FormatTime(ParseShiftTimes(startTime), ParseShiftTimes(endTime))
  }

  lemma MorningParts(date: string)
    requires |date| == 10
    ensures ParseShiftTimes(Some(date + " 07:00 AM")) == "07" + ":" + "00"
  {
    assert date + " 07:00 AM" == date + " " + "07" + ":" + "00" + " " + "AM";
    ParseShiftTimesWellFormed(date, "07", "00", "AM");
  }

  /** The source comment's example time in the morning: 07:00 AM stays 07:00. */
  lemma ParseShiftTimesMorning(date: string)
    requires |date| == 10
    ensures ParseShiftTimes(Some(date + " 07:00 AM")) == "07:00"
  {
    MorningParts(date);
    SevenOClock();
  }

  lemma SevenOClock()
    ensures "07" + ":" + "00" == "07:00"
  {
  }

  /** A person on from 7 AM to 7 PM gets the sun icon. */
  lemma DayTourShowsSun(startDate: string, endDate: string)
    requires |startDate| == 10 && |endDate| == 10
    ensures FormatShiftTime(Some(startDate + " 07:00 AM"), Some(endDate + " 07:00 PM"))
            == TimeDisplay(true, Sun, "07:00 - 19:00")
  {
    ParseShiftTimesMorning(startDate);
    ParseShiftTimesEvening(endDate);
    FormatTimePairs();
  }

  /** A person on from 7 PM to 7 AM gets the moon icon. */
  lemma NightTourShowsMoon(startDate: string, endDate: string)
    requires |startDate| == 10 && |endDate| == 10
    ensures FormatShiftTime(Some(startDate + " 07:00 PM"), Some(endDate + " 07:00 AM"))
            == TimeDisplay(true, Moon, "19:00 - 07:00")
  {
    ParseShiftTimesEvening(startDate);
    ParseShiftTimesMorning(endDate);
    FormatTimePairs();
  }

  /** A full 24-hour tour, 7 AM to 7 AM, shows nothing. */
  lemma FullTourShowsNothing(startDate: string, endDate: string)
    requires |startDate| == 10 && |endDate| == 10
    ensures FormatShiftTime(Some(startDate + " 07:00 AM"), Some(endDate + " 07:00 AM"))
            == TimeDisplay(false, NoIcon, "")
  {
    ParseShiftTimesMorning(startDate);
    ParseShiftTimesMorning(endDate);
    FormatTimePairs();
  }

  /** The station name `loadRoster` sends. */
  function StationRequest(station: string): (r: string)
    ensures |r| == |station| + 8 && r[..8] == "Station " && r[8..] == station
  {
    "Station " + station
  }

  /** The component: its props, the fields `staff` sets, and the utilities
      object whose `station` `fetchRoster` writes. */
  class SwimStaffView {
    const station: string
    const date: string
    const updateInterval: Value
    const utils: SwimUtils
    var loading: bool
    var roster: Option<SwimRoster>
    var error: Option<string>
    var timeout: Option<int>

    constructor(station: string, date: string, updateInterval: Value, utils: SwimUtils)
      ensures this.station == station && this.date == date && this.updateInterval == updateInterval
      ensures this.utils == utils
      ensures loading && roster.None? && error.None? && timeout.None?
    {
      this.station := station;
      this.date := date;
      this.updateInterval := updateInterval;
      this.utils := utils;
      loading := true;
      roster := None;
      error := None;
      timeout := None;
    }

    method Autoupdate()
      modifies this
      ensures timeout == PollDelay(updateInterval)
      ensures loading == old(loading) && roster == old(roster) && error == old(error)
    {
      timeout := None;
      var time := PollDelay(updateInterval);
      if time.None? {
        return;
      }
      timeout := time;
    }

    /** `loadRoster`: request "Station <station>" for the requested date; a
        roster replaces the stored one, a failure rejects with its message.
        Returns the date asked for and the outcome. */
    method LoadRoster(reply: Result<RosterData>) returns (request: DateRequest, outcome: Result<SwimRoster>)
      modifies this, utils
      ensures request == RosterDate(date)
      ensures utils.station == Str(StationRequest(station))
      ensures reply.Failure? ==> outcome == Failure(reply.error)
      ensures reply.Success? ==> outcome == MapRosterSpec(reply.value, Str(StationRequest(station)))
      ensures outcome.Success? ==> roster == Some(outcome.value)
      ensures outcome.Failure? ==> roster == old(roster)
      ensures loading == old(loading) && error == old(error) && timeout == old(timeout)
    {
      request := RosterDate(date);
      outcome := utils.FetchRoster(Str(StationRequest(station)), reply);
      if outcome.Success? {
        roster := Some(outcome.value);
      }
    }

    /** `staff`: show the spinner if asked, load, clear `error` on success or
        set it to the message followed by `stack` on failure, and always end
        with `loading` off and the next poll scheduled. */
    method Staff(setLoading: bool, reply: Result<RosterData>, stack: string)
      modifies this, utils
      ensures !loading
      ensures timeout == PollDelay(updateInterval)
      ensures utils.station == Str(StationRequest(station))
      ensures var outcome := if reply.Failure? then Failure(reply.error)
                             else MapRosterSpec(reply.value, Str(StationRequest(station)));
              && (outcome.Success? ==> error.None? && roster == Some(outcome.value))
              && (outcome.Failure? ==> error == Some(outcome.error + stack) && roster == old(roster))
    {
      loading := setLoading;
      var _, outcome := LoadRoster(reply);
      if outcome.Success? {
        error := None;
      } else {
        error := Some(outcome.error + stack);
      }
      loading := false;
      Autoupdate();
    }
  }
}
