/** The staffing view's roster shaping: unit names of the station's units,
    and the grouping of the staffing server's flat record list into one
    entry per unit. */
module TelestaffUtils {
  import opened JsBuiltins
  import opened StaffingRules

  /** A unit as the units service returns it. */
  datatype UnitDto = UnitDto(radioName: Value, fields: map<string, Value>)

  /** One record of the roster: a person on a position of a unit. */
  datatype StaffRecord = StaffRecord(unitName: Value, unitNotes: Value, fields: map<string, Value>)

  /** One unit of the shaped roster; `positions` is the source's `Position`. */
  datatype StationUnit = StationUnit(title: Value, notes: Value, positions: seq<StaffRecord>)

  /** What `mapRoster` returns, without the day name and the dayjs date. */
  datatype Roster = Roster(shift: Option<char>, station: Value, units: seq<StationUnit>)

  /** The staffing server's reply: its status code, the roster's day and its
      records. */
  datatype StaffingReply = StaffingReply(statusCode: Value, rosterDay: int, records: seq<StaffRecord>)

  const StatusOk := Num(200)

  /** `fetchRoster`: `reply` is the outcome of the fetch and JSON decoding.
      A failed fetch, or a reply whose status code is not 200, throws inside
      the chain, and the final `catch` only logs: the promise resolves to
      undefined (`None`). */
  method FetchRoster(station: Value, reply: Result<StaffingReply>) returns (r: Option<Roster>)
    ensures reply.Failure? || reply.value.statusCode != StatusOk ==> r.None?
    ensures reply.Success? && reply.value.statusCode == StatusOk ==>
              r == Some(Roster(GetShift(reply.value.rosterDay), station, Grouped(reply.value.records)))
  {
    if reply.Failure? || reply.value.statusCode != StatusOk {
      return None;
    }
    var roster := MapRoster(reply.value.records, reply.value.rosterDay, station);
    r := Some(roster);
  }

  /** `filterUnits`: the radio names, in order. */
  method FilterUnits(data: seq<UnitDto>) returns (names: seq<Value>)
    ensures |names| == |data|
    ensures forall k :: 0 <= k < |data| ==> names[k] == data[k].radioName
  {
    names := [];
    for i := 0 to |data|
      invariant |names| == i
      invariant forall k :: 0 <= k < i ==> names[k] == data[k].radioName
    {
      names := names + [data[i].radioName];
    }
  }

  function UnitNames(records: seq<StaffRecord>): (r: seq<Value>)
    ensures |r| == |records|
    ensures forall k :: 0 <= k < |records| ==> r[k] == records[k].unitName
  {
    seq(|records|, k requires 0 <= k < |records| => records[k].unitName)
  }

  function Titles(units: seq<StationUnit>): (r: seq<Value>)
    ensures |r| == |units|
    ensures forall k :: 0 <= k < |units| ==> r[k] == units[k].title
  {
    seq(|units|, k requires 0 <= k < |units| => units[k].title)
  }

  /** The distinct values of `xs`, in the order they first appear. */
  function FirstOccurrences(xs: seq<Value>): (r: seq<Value>)
    ensures forall x :: x in r <==> x in xs
    ensures forall a, b :: 0 <= a < b < |r| ==> r[a] != r[b]
  {
    if xs == [] then []
    else
      var init := xs[..|xs| - 1];
      assert xs == init + [xs[|xs| - 1]];
      var d := FirstOccurrences(init);
      if xs[|xs| - 1] in d then d else d + [xs[|xs| - 1]]
  }

  lemma FirstOccurrencesSeen(xs: seq<Value>, x: Value)
    requires x in xs
    ensures FirstOccurrences(xs + [x]) == FirstOccurrences(xs)
  {
    assert (xs + [x])[..|xs|] == xs;
  }

  lemma FirstOccurrencesNew(xs: seq<Value>, x: Value)
    requires x !in xs
    ensures FirstOccurrences(xs + [x]) == FirstOccurrences(xs) + [x]
  {
    assert (xs + [x])[..|xs|] == xs;
  }

  /** The records of one unit, in input order. */
  function RecordsOf(records: seq<StaffRecord>, title: Value): (r: seq<StaffRecord>)
    ensures |r| <= |records|
    ensures forall k :: 0 <= k < |r| ==> r[k].unitName == title && r[k] in records
    ensures (forall k :: 0 <= k < |records| ==> records[k].unitName != title) ==> r == []
  {
    if records == [] then []
    else
      var init := records[..|records| - 1];
      var last := records[|records| - 1];
      assert forall x :: x in init ==> x in records;
      RecordsOf(init, title) + (if last.unitName == title then [last] else [])
  }

  /** `units.findIndex((r) => r.title === title)`. */
  function TitleIndex(units: seq<StationUnit>, title: Value): (idx: int)
    ensures -1 <= idx < |units|
    ensures idx == -1 <==> forall k :: 0 <= k < |units| ==> units[k].title != title
    ensures idx >= 0 ==> units[idx].title == title && forall k :: 0 <= k < idx ==> units[k].title != title
  {
    if units == [] then -1
    else if units[0].title == title then 0
    else
      var i := TitleIndex(units[1..], title);
      assert forall k :: 1 <= k < |units| ==> units[k] == units[1..][k - 1];
      if i == -1 then -1 else i + 1
  }

  /** One step of the `reduce`: file the record under its unit, creating
      the unit (with the record's notes) the first time its name is seen. */
  function AddRecord(units: seq<StationUnit>, record: StaffRecord): seq<StationUnit>
  {
    var idx := TitleIndex(units, record.unitName);
    if idx == -1 then units + [StationUnit(record.unitName, record.unitNotes, [record])]
    else units[idx := units[idx].(positions := units[idx].positions + [record])]
  }

  /** The grouping `mapRoster` builds, as a left fold over the records. */
  function Grouped(records: seq<StaffRecord>): (r: seq<StationUnit>)
    ensures |r| <= |records|
    ensures forall k :: 0 <= k < |r| ==> r[k].positions != []
  {
    if records == [] then []
    else AddRecord(Grouped(records[..|records| - 1]), records[|records| - 1])
  }

  /** The `findIndex` search. */
  method FindUnit(units: seq<StationUnit>, title: Value) returns (idx: int)
    ensures idx == TitleIndex(units, title)
  {
    idx := 0;
    while idx < |units| && units[idx].title != title
      invariant 0 <= idx <= |units|
      invariant forall k :: 0 <= k < idx ==> units[k].title != title
    {
      idx := idx + 1;
    }
    if idx == |units| {
      idx := -1;
    }
  }

  /** `mapRoster`: the roster's records grouped by unit, with the shift of
      the roster's day and the requested station. */
  method MapRoster(records: seq<StaffRecord>, rosterDay: int, station: Value) returns (roster: Roster)
    ensures roster.units == Grouped(records)
    ensures roster.shift == GetShift(rosterDay) && roster.station == station
  {
    var units: seq<StationUnit> := [];
    for i := 0 to |records|
      invariant units == Grouped(records[..i])
    {
      var record := records[i];
      ghost var before := units;
      var found := FindUnit(units, record.unitName);
      var idx := found;
      if idx == -1 {
        units := units + [StationUnit(record.unitName, record.unitNotes, [])];
        idx := |units| - 1;
      }
      units := units[idx := units[idx].(positions := units[idx].positions + [record])];
      if found == -1 {
        assert idx == |before| && |units| == |before| + 1;
        assert units[idx] == StationUnit(record.unitName, record.unitNotes, [] + [record]);
        assert [] + [record] == [record];
        assert units[..|before|] == before;
        assert units == before + [StationUnit(record.unitName, record.unitNotes, [record])];
      }
      assert units == AddRecord(before, record);
      assert records[..i + 1][..i] == records[..i] && records[..i + 1][i] == record;
    }
    assert records[..|records|] == records;
    roster := Roster(GetShift(rosterDay), station, units);
  }

  /** A unit holds exactly the records carrying its name, in input order,
      and the notes of the first of them. */
  predicate UnitMatches(records: seq<StaffRecord>, u: StationUnit)
  {
    u.positions == RecordsOf(records, u.title) && u.positions != []
    && u.notes == u.positions[0].unitNotes
  }

  /** What the grouping holds: one unit per distinct unit name, in order of
      first appearance, each matching its records. */
  predicate GroupedShape(records: seq<StaffRecord>, units: seq<StationUnit>)
  {
    && Titles(units) == FirstOccurrences(UnitNames(records))
    && forall k :: 0 <= k < |units| ==> UnitMatches(records, units[k])
  }

  lemma GroupedHasShape(records: seq<StaffRecord>)
    ensures GroupedShape(records, Grouped(records))
    decreases |records|
  {
    if records != [] {
      var rs := records[..|records| - 1];
      GroupedHasShape(rs);
      assert records == rs + [records[|records| - 1]];
      AddRecordKeepsShape(rs, records[|records| - 1], Grouped(rs));
    }
  }

  lemma RecordsOfSnoc(rs: seq<StaffRecord>, r: StaffRecord, x: Value)
    ensures RecordsOf(rs + [r], x) == RecordsOf(rs, x) + (if r.unitName == x then [r] else [])
  {
    assert (rs + [r])[..|rs|] == rs;
  }

  lemma UnitMatchesOther(rs: seq<StaffRecord>, r: StaffRecord, u: StationUnit)
    requires UnitMatches(rs, u) && u.title != r.unitName
    ensures UnitMatches(rs + [r], u)
  {
    RecordsOfSnoc(rs, r, u.title);
  }

  lemma UnitMatchesSame(rs: seq<StaffRecord>, r: StaffRecord, u: StationUnit)
    requires UnitMatches(rs, u) && u.title == r.unitName
    ensures UnitMatches(rs + [r], u.(positions := u.positions + [r]))
  {
    RecordsOfSnoc(rs, r, u.title);
  }

  /** One step of the fold keeps the shape. */
  lemma AddRecordKeepsShape(rs: seq<StaffRecord>, r: StaffRecord, g: seq<StationUnit>)
    requires GroupedShape(rs, g)
    ensures GroupedShape(rs + [r], AddRecord(g, r))
  {
    var idx := TitleIndex(g, r.unitName);
    if idx == -1 {
      AddNewUnitKeepsShape(rs, r, g);
    } else {
      AddToUnitKeepsShape(rs, r, g, idx);
    }
  }

  /** A record with a name not seen before opens a new unit at the end. */
  lemma AddNewUnitKeepsShape(rs: seq<StaffRecord>, r: StaffRecord, g: seq<StationUnit>)
    requires GroupedShape(rs, g) && TitleIndex(g, r.unitName) == -1
    ensures GroupedShape(rs + [r], AddRecord(g, r))
  {
    var t := r.unitName;
    var records := rs + [r];
    assert UnitNames(records) == UnitNames(rs) + [t];
    assert forall x :: x in Titles(g) <==> x in UnitNames(rs);
    var g' := AddRecord(g, r);
    assert g' == g + [StationUnit(t, r.unitNotes, [r])];
    assert t !in UnitNames(rs);
    FirstOccurrencesNew(UnitNames(rs), t);
    assert Titles(g') == Titles(g) + [t];
    forall k | 0 <= k < |g'| ensures UnitMatches(records, g'[k]) {
      if k < |g| {
        UnitMatchesOther(rs, r, g[k]);
      } else {
        assert forall j :: 0 <= j < |rs| ==> rs[j].unitName != t by {
          forall j | 0 <= j < |rs| ensures rs[j].unitName != t {
            assert UnitNames(rs)[j] == rs[j].unitName;
          }
        }
        RecordsOfSnoc(rs, r, t);
      }
    }
  }

  /** A record with a name already seen joins that unit, at the end. */
  lemma AddToUnitKeepsShape(rs: seq<StaffRecord>, r: StaffRecord, g: seq<StationUnit>, idx: int)
    requires GroupedShape(rs, g) && TitleIndex(g, r.unitName) == idx && idx >= 0
    ensures GroupedShape(rs + [r], AddRecord(g, r))
  {
    var t := r.unitName;
    var records := rs + [r];
    assert UnitNames(records) == UnitNames(rs) + [t];
    assert Titles(g)[idx] == t;
    assert t in UnitNames(rs);
    FirstOccurrencesSeen(UnitNames(rs), t);
    var g' := AddRecord(g, r);
    assert g' == g[idx := g[idx].(positions := g[idx].positions + [r])];
    assert Titles(g') == Titles(g);
    forall k | 0 <= k < |g'| ensures UnitMatches(records, g'[k]) {
      if k == idx {
        UnitMatchesSame(rs, r, g[k]);
      } else {
        assert Titles(g)[k] != Titles(g)[idx];
        UnitMatchesOther(rs, r, g[k]);
      }
    }
  }

  /** Unit titles never repeat. */
  lemma GroupedTitlesDistinct(records: seq<StaffRecord>)
    ensures forall a, b :: 0 <= a < b < |Grouped(records)| ==> Grouped(records)[a].title != Grouped(records)[b].title
  {
    GroupedHasShape(records);
    var units := Grouped(records);
    assert forall k :: 0 <= k < |units| ==> Titles(units)[k] == units[k].title;
  }

  /** Every record lands in the unit named after it. */
  lemma GroupedContainsEveryRecord(records: seq<StaffRecord>, k: nat)
    requires k < |records|
    ensures exists u :: 0 <= u < |Grouped(records)| && Grouped(records)[u].title == records[k].unitName
                        && records[k] in Grouped(records)[u].positions
  {
    GroupedHasShape(records);
    var units := Grouped(records);
    var t := records[k].unitName;
    assert t in UnitNames(records) by { assert UnitNames(records)[k] == t; }
    assert t in Titles(units);
    var u :| 0 <= u < |units| && Titles(units)[u] == t;
    RecordsOfContains(records, k);
  }

  lemma {:induction false} RecordsOfContains(records: seq<StaffRecord>, k: nat)
    requires k < |records|
    ensures records[k] in RecordsOf(records, records[k].unitName)
  {
    var init := records[..|records| - 1];
    if k < |records| - 1 {
      RecordsOfContains(init, k);
    }
  }

  /** The number of positions over all units. */
  function TotalPositions(units: seq<StationUnit>): nat
  {
    if units == [] then 0 else |units[0].positions| + TotalPositions(units[1..])
  }

  lemma {:induction false} TotalAppend(units: seq<StationUnit>, u: StationUnit)
    ensures TotalPositions(units + [u]) == TotalPositions(units) + |u.positions|
  {
    if units != [] {
      assert (units + [u])[1..] == units[1..] + [u];
      TotalAppend(units[1..], u);
    }
  }

  lemma {:induction false} TotalGrow(units: seq<StationUnit>, idx: nat, record: StaffRecord)
    requires idx < |units|
    ensures TotalPositions(units[idx := units[idx].(positions := units[idx].positions + [record])])
            == TotalPositions(units) + 1
  {
    var grown := units[idx := units[idx].(positions := units[idx].positions + [record])];
    if idx > 0 {
      assert grown[1..] == units[1..][idx - 1 := units[idx].(positions := units[idx].positions + [record])];
      TotalGrow(units[1..], idx - 1, record);
    }
  }

  /** No record is lost or duplicated: the units hold as many positions as
      there were records. */
  lemma {:induction false} GroupedKeepsCount(records: seq<StaffRecord>)
    ensures TotalPositions(Grouped(records)) == |records|
  {
    if records != [] {
      var rs := records[..|records| - 1];
      var r := records[|records| - 1];
      GroupedKeepsCount(rs);
      var idx := TitleIndex(Grouped(rs), r.unitName);
      if idx == -1 {
        TotalAppend(Grouped(rs), StationUnit(r.unitName, r.unitNotes, [r]));
      } else {
        TotalGrow(Grouped(rs), idx, r);
      }
    }
  }
}
