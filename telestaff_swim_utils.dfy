/** The swim-lane roster's data shaping: pick the shift of the roster's day
    and the configured station out of the staffing server's nested reply,
    regroup each unit's working people by position id, and list the units'
    notes as activities. */
module TelestaffSwimUtils {
  import opened JsBuiltins
  import opened StaffingRules

  /** One entry of a unit's `Position` array: a person on a position. */
  datatype Person = Person(id: Value, title: Value, isWorking: bool, fields: map<string, Value>)

  /** One value of the regrouped `Position` object. */
  datatype PositionGroup = PositionGroup(title: Value, people: seq<Person>)

  /** A unit's `Position`: the server's array, or the object `mapRoster`
      writes over it. */
  datatype PositionField = Listed(entries: seq<Person>) | Keyed(groups: map<Value, PositionGroup>)

  datatype SwimUnit = SwimUnit(title: Value, notes: Value, position: PositionField)
  datatype Station = Station(title: Value, units: seq<SwimUnit>)
  datatype ShiftEntry = ShiftEntry(title: string, stations: seq<Station>)

  /** The parts of the reply `mapRoster` destructures: the roster's date (as a
      day number) and the battalion's shifts. */
  datatype RosterData = RosterData(shiftDay: int, shifts: seq<ShiftEntry>)

  /** An element of `activities`: a unit's notes, or the empty array pushed
      after each of them. */
  datatype Activity = Activity(unit: Value, activity: Value) | EmptyArray

  /** What `mapRoster` returns, without the day name and the dayjs date. */
  datatype SwimRoster = SwimRoster(shift: string, station: Value, units: seq<SwimUnit>, activities: seq<Activity>)

  const OffRoster := Str("{off roster}")
  const NoNotes := Str("")

  /** The title of the shift working on a platoon's day. */
  function ShiftTitle(letter: char): string
  {
    "Ops " + [UpperChar(letter)] + " Shift"
  }

  /** `shift.title.split(" ")[1].toLowerCase()`; reading past the end of the
      split gives undefined, whose `toLowerCase` throws. */
  function ShiftName(title: string): (r: Option<string>)
    ensures r.Some? <==> |Split(title, ' ')| > 1
  {
    var parts := Split(title, ' ');
    if |parts| > 1 then Some(ToLower(parts[1])) else None
  }

  /** The name read back from a shift title is the platoon letter. */
  lemma ShiftNameOfTitle(letter: char)
    requires letter in {'a', 'b', 'c'}
    ensures ShiftName(ShiftTitle(letter)) == Some([letter])
  {
    var u := UpperChar(letter);
    assert ShiftTitle(letter) == "Ops" + [' '] + ([u] + [' '] + "Shift");
    SplitAt("Ops", ' ', [u] + [' '] + "Shift");
    SplitAt([u], ' ', "Shift");
    SplitNoSep("Shift", ' ');
    assert Split(ShiftTitle(letter), ' ') == ["Ops", [u], "Shift"];
    assert ToLower([u]) == [LowerChar(u)];
  }

  /** `unit["Position"].filter((position) => position.isWorking)`. */
  function Working(entries: seq<Person>): (r: seq<Person>)
    ensures |r| <= |entries|
    ensures forall k :: 0 <= k < |r| ==> r[k].isWorking && r[k] in entries
    ensures forall k :: 0 <= k < |entries| && entries[k].isWorking ==> entries[k] in r
  {
    if entries == [] then []
    else
      var init := entries[..|entries| - 1];
      var last := entries[|entries| - 1];
      assert entries == init + [last];
      Working(init) + (if last.isWorking then [last] else [])
  }

  /** The people with a given position id, in order. */
  function PeopleWithId(people: seq<Person>, id: Value): (r: seq<Person>)
    ensures forall k :: 0 <= k < |r| ==> r[k].id == id && r[k] in people
  {
    if people == [] then []
    else
      var init := people[..|people| - 1];
      var last := people[|people| - 1];
      assert forall x :: x in init ==> x in people;
      PeopleWithId(init, id) + (if last.id == id then [last] else [])
  }

  /** The `positions` object the inner `forEach` builds, as a left fold. */
  function PositionsMap(people: seq<Person>): map<Value, PositionGroup>
  {
    if people == [] then map[]
    else
      var m := PositionsMap(people[..|people| - 1]);
      var p := people[|people| - 1];
      if p.id in m then m[p.id := m[p.id].(people := m[p.id].people + [p])]
      else m[p.id := PositionGroup(p.title, [p])]
  }

  predicate HasId(people: seq<Person>, id: Value)
  {
    exists k :: 0 <= k < |people| && people[k].id == id
  }

  /** One key per position id that has someone on it; under it, everyone
      with that id in order, titled after the first of them. */
  ghost predicate PositionsShape(people: seq<Person>, m: map<Value, PositionGroup>)
  {
    && (forall id :: id in m <==> HasId(people, id))
    && (forall id :: id in m ==>
          m[id].people == PeopleWithId(people, id) && m[id].people != []
          && m[id].title == m[id].people[0].title)
  }

  lemma {:induction false} PositionsMapShape(people: seq<Person>)
    ensures PositionsShape(people, PositionsMap(people))
  {
    if people != [] {
      var init := people[..|people| - 1];
      PositionsMapShape(init);
      assert people == init + [people[|people| - 1]];
      PositionsStep(init, people[|people| - 1], PositionsMap(init));
    }
  }

  lemma PositionsStep(init: seq<Person>, p: Person, m: map<Value, PositionGroup>)
    requires m == PositionsMap(init) && PositionsShape(init, m)
    ensures PositionsShape(init + [p], PositionsMap(init + [p]))
  {
    var people := init + [p];
    assert people[..|people| - 1] == init;
    var m' := PositionsMap(people);
    HasIdSnoc(init, p);
    if p.id !in m {
      PeopleWithIdAbsent(init, p.id);
    }
    forall id | id in m'
      ensures m'[id].people == PeopleWithId(people, id) && m'[id].people != []
      ensures m'[id].title == m'[id].people[0].title
    {
      assert PeopleWithId(people, id) == PeopleWithId(init, id) + (if p.id == id then [p] else []);
    }
  }

  lemma HasIdSnoc(init: seq<Person>, p: Person)
    ensures forall id :: HasId(init + [p], id) <==> HasId(init, id) || id == p.id
  {
    var people := init + [p];
    forall id | HasId(people, id)
      ensures HasId(init, id) || id == p.id
    {
      var k :| 0 <= k < |people| && people[k].id == id;
      if k < |init| { assert init[k].id == id; }
    }
    forall id | HasId(init, id)
      ensures HasId(people, id)
    {
      var k :| 0 <= k < |init| && init[k].id == id;
      assert people[k].id == id;
    }
    assert people[|init|] == p;
  }

  lemma {:induction false} PeopleWithIdAbsent(people: seq<Person>, id: Value)
    requires forall k :: 0 <= k < |people| ==> people[k].id != id
    ensures PeopleWithId(people, id) == []
  {
    if people != [] {
      PeopleWithIdAbsent(people[..|people| - 1], id);
    }
  }

  /** Regrouping one unit: its `Position` array becomes the map of its
      working people. */
  function RegroupUnit(u: SwimUnit): SwimUnit
    requires u.position.Listed?
  {
    u.(position := Keyed(PositionsMap(Working(u.position.entries))))
  }

  /** The `units.forEach`: every kept unit regrouped; a `Position` that is not
      an array has no `filter`, and the call throws. */
  function Regrouped(units: seq<SwimUnit>): (r: Result<seq<SwimUnit>>)
    ensures r.Success? <==> forall k :: 0 <= k < |units| ==> units[k].position.Listed?
    ensures r.Success? ==> |r.value| == |units|
  {
    if forall k :: 0 <= k < |units| ==> units[k].position.Listed? then
      Success(seq(|units|, k requires 0 <= k < |units| => RegroupUnit(units[k])))
    else Failure(TypeError)
  }

  /** What one unit adds to `activities`. */
  function ActivityOf(u: SwimUnit): seq<Activity>
  {
    if u.notes != NoNotes then [Activity(u.title, u.notes), EmptyArray] else []
  }

  /** The `activities` reduce over all of the station's units. */
  function Activities(units: seq<SwimUnit>): seq<Activity>
  {
    if units == [] then []
    else Activities(units[..|units| - 1]) + ActivityOf(units[|units| - 1])
  }

  function CountNoted(units: seq<SwimUnit>): nat
  {
    if units == [] then 0
    else CountNoted(units[..|units| - 1]) + (if units[|units| - 1].notes != NoNotes then 1 else 0)
  }

  /** Two elements per unit with notes, an activity followed by an empty
      array, whether or not the unit is off the roster. */
  lemma {:induction false} ActivitiesShape(units: seq<SwimUnit>)
    ensures |Activities(units)| == 2 * CountNoted(units)
    ensures forall k :: 0 <= k < |Activities(units)| ==>
              (k % 2 == 0 <==> Activities(units)[k].Activity?)
    ensures forall u :: u in units && u.notes != NoNotes ==> Activity(u.title, u.notes) in Activities(units)
  {
    if units != [] {
      var init := units[..|units| - 1];
      ActivitiesShape(init);
      assert units == init + [units[|units| - 1]];
    }
  }

  /** The whole of `mapRoster`, including where it throws: no shift titled
      after the day's platoon, no station with the stored name, or a unit
      whose `Position` is not an array. */
  function MapRosterSpec(data: RosterData, station: Value): Result<SwimRoster>
  {
    var letter := GetShift(data.shiftDay);
    if letter.None? then Failure(TypeError)
    else
      var shift := Find(data.shifts, (s: ShiftEntry) => s.title == ShiftTitle(letter.value));
      if shift.None? then Failure(TypeError)
      else
        var found := Find(shift.value.stations, (st: Station) => st.title == station);
        if found.None? then Failure(TypeError)
        else
          var kept := Filter(found.value.units, (u: SwimUnit) => u.title != OffRoster);
          var regrouped := Regrouped(kept);
          var name := ShiftName(shift.value.title);
          if regrouped.Failure? || name.None? then Failure(TypeError)
          else Success(SwimRoster(name.value, found.value.title, regrouped.value, Activities(found.value.units)))
  }

  /** A roster comes back for the stored station, for the shift of the
      roster's day, without off-roster units and with every unit's positions
      regrouped. */
  lemma MapRosterResult(data: RosterData, station: Value)
    requires MapRosterSpec(data, station).Success?
    ensures var r := MapRosterSpec(data, station).value;
            && r.station == station
            && r.shift == [PlatoonOf(data.shiftDay % 9)]
            && (forall k :: 0 <= k < |r.units| ==> r.units[k].title != OffRoster && r.units[k].position.Keyed?)
  {
    var letter := PlatoonOf(data.shiftDay % 9);
    var shift := Find(data.shifts, (s: ShiftEntry) => s.title == ShiftTitle(letter));
    ShiftNameOfTitle(letter);
    assert shift.value.title == ShiftTitle(letter);
    var found := Find(shift.value.stations, (st: Station) => st.title == station);
    var kept := Filter(found.value.units, (u: SwimUnit) => u.title != OffRoster);
    assert forall k :: 0 <= k < |kept| ==> kept[k].title != OffRoster;
  }

  /** A reply without a shift titled after the day's platoon throws. */
  lemma MapRosterNoShift(data: RosterData, station: Value)
    requires forall k :: 0 <= k < |data.shifts| ==> data.shifts[k].title != ShiftTitle(PlatoonOf(data.shiftDay % 9))
    ensures MapRosterSpec(data, station).Failure?
  {
  }

  /** A shift without a station of the stored name throws. */
  lemma MapRosterNoStation(data: RosterData, station: Value, k: nat)
    requires k < |data.shifts| && data.shifts[k].title == ShiftTitle(PlatoonOf(data.shiftDay % 9))
    requires forall j :: 0 <= j < k ==> data.shifts[j].title != ShiftTitle(PlatoonOf(data.shiftDay % 9))
    requires forall s :: 0 <= s < |data.shifts[k].stations| ==> data.shifts[k].stations[s].title != station
    ensures MapRosterSpec(data, station).Failure?
  {
    var letter := PlatoonOf(data.shiftDay % 9);
    var shift := Find(data.shifts, (s: ShiftEntry) => s.title == ShiftTitle(letter));
    assert shift == Some(data.shifts[k]);
  }

  /** With the day's shift and the station present, and every kept unit
      still listing its positions, a roster comes back. */
  lemma MapRosterSucceeds(data: RosterData, station: Value, k: nat, s: nat)
    requires k < |data.shifts| && data.shifts[k].title == ShiftTitle(PlatoonOf(data.shiftDay % 9))
    requires forall j :: 0 <= j < k ==> data.shifts[j].title != ShiftTitle(PlatoonOf(data.shiftDay % 9))
    requires s < |data.shifts[k].stations| && data.shifts[k].stations[s].title == station
    requires forall j :: 0 <= j < s ==> data.shifts[k].stations[j].title != station
    requires forall u :: u in data.shifts[k].stations[s].units ==> u.position.Listed?
    ensures MapRosterSpec(data, station).Success?
  {
    var letter := PlatoonOf(data.shiftDay % 9);
    var shift := Find(data.shifts, (e: ShiftEntry) => e.title == ShiftTitle(letter));
    assert shift == Some(data.shifts[k]);
    ShiftNameOfTitle(letter);
    var found := Find(data.shifts[k].stations, (st: Station) => st.title == station);
    var kept := Filter(found.value.units, (u: SwimUnit) => u.title != OffRoster);
    assert found == Some(data.shifts[k].stations[s]);
    assert forall i :: 0 <= i < |kept| ==> kept[i] in found.value.units;
  }

  /** The module state: the station `fetchRoster` stores for `mapRoster`. */
  class SwimUtils {
    var station: Value

    constructor()
      ensures station == Null
    {
      station := Null;
    }

    /** `fetchRoster`: store the station, then shape the reply; `reply` is
        the outcome of the fetch and JSON decoding. A failed fetch rejects
        the returned promise. */
    method FetchRoster(optsStation: Value, reply: Result<RosterData>) returns (r: Result<SwimRoster>)
      modifies this
      ensures station == optsStation
      ensures reply.Failure? ==> r == Failure(reply.error)
      ensures reply.Success? ==> r == MapRosterSpec(reply.value, optsStation)
    {
      station := optsStation;
      if reply.Failure? {
        return Failure(reply.error);
      }
      r := MapRoster(reply.value);
    }

    /** `mapRoster`, regrouping each kept unit's positions in place. */
    method MapRoster(data: RosterData) returns (r: Result<SwimRoster>)
      ensures r == MapRosterSpec(data, station)
    {
      var letter := GetShift(data.shiftDay);
      if letter.None? {
        return Failure(TypeError);
      }
      var shift := Find(data.shifts, (s: ShiftEntry) => s.title == ShiftTitle(letter.value));
      if shift.None? {
        return Failure(TypeError);
      }
      var wanted := station;
      var found := Find(shift.value.stations, (st: Station) => st.title == wanted);
      if found.None? {
        return Failure(TypeError);
      }
      var kept := Filter(found.value.units, (u: SwimUnit) => u.title != OffRoster);
      var regrouped := RegroupUnits(kept);
      if regrouped.Failure? {
        return Failure(TypeError);
      }
      var name := ShiftName(shift.value.title);
      if name.None? {
        return Failure(TypeError);
      }
      var activities := CollectActivities(found.value.units);
      r := Success(SwimRoster(name.value, found.value.title, regrouped.value, activities));
    }
  }

  /** The `units.forEach` that writes each unit's regrouped `Position` over
      its array. */
  method RegroupUnits(kept: seq<SwimUnit>) returns (r: Result<seq<SwimUnit>>)
    ensures r == Regrouped(kept)
  {
    var units := kept;
    for i := 0 to |units|
      invariant |units| == |kept|
      invariant forall k :: 0 <= k < i ==> kept[k].position.Listed? && units[k] == RegroupUnit(kept[k])
      invariant forall k :: i <= k < |units| ==> units[k] == kept[k]
    {
      if units[i].position.Keyed? {
        return Failure(TypeError);
      }
      var people := Working(units[i].position.entries);
      var positions := BuildPositions(people);
      units := units[i := units[i].(position := Keyed(positions))];
    }
    assert units == seq(|kept|, k requires 0 <= k < |kept| => RegroupUnit(kept[k]));
    r := Success(units);
  }

  /** The inner `forEach` that fills `positions`. */
  method BuildPositions(people: seq<Person>) returns (positions: map<Value, PositionGroup>)
    ensures positions == PositionsMap(people)
  {
    positions := map[];
    for i := 0 to |people|
      invariant positions == PositionsMap(people[..i])
    {
      var person := people[i];
      ghost var before := positions;
      if person.id !in positions {
        positions := positions[person.id := PositionGroup(person.title, [])];
      }
      positions := positions[person.id := positions[person.id].(people := positions[person.id].people + [person])];
      if person.id !in before {
        assert [] + [person] == [person];
        assert positions == before[person.id := PositionGroup(person.title, [person])];
      }
      assert people[..i + 1][..i] == people[..i] && people[..i + 1][i] == person;
    }
    assert people[..|people|] == people;
  }

  /** The `activities` reduce. */
  method CollectActivities(units: seq<SwimUnit>) returns (activities: seq<Activity>)
    ensures activities == Activities(units)
  {
    activities := [];
    for i := 0 to |units|
      invariant activities == Activities(units[..i])
    {
      if units[i].notes != NoNotes {
        activities := activities + [Activity(units[i].title, units[i].notes), EmptyArray];
      }
      assert units[..i + 1][..i] == units[..i];
    }
    assert units[..|units|] == units;
  }
}
