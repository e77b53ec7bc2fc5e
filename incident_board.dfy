/** The incident list of the incidents component and the push handlers that
    reconcile it in place: prepend on add, field patch by id, and the unit
    upsert by radio name that overwrites only `statusId`. */
module IncidentBoard {
  import opened JsBuiltins

  /** A unit assigned to an incident; `fields` holds everything but the two
      fields the handlers touch. */
  datatype Unit = Unit(radioName: Value, statusId: Value, fields: map<string, Value>)

  /** An incident: its id, its other fields by name, and its `units`
      property: `Some` while it holds an array of units, `None` when it is
      missing or holds anything else (null, a string, a number). */
  datatype Incident = Incident(id: Value, fields: map<string, Value>, units: Option<seq<Unit>>)

  /** Payload of "incident-updated". */
  datatype FieldUpdate = FieldUpdate(incidentId: Value, field: string, value: Value)

  /** Payload of "incident-unit-updated". */
  datatype UnitUpdate = UnitUpdate(incidentId: Value, unit: Unit)

  // ------------------------------------------------------------ specification

  /** The fetched list in most-recent-first order. */
  function Reversed(s: seq<Incident>): (r: seq<Incident>)
    ensures |r| == |s|
    ensures forall k :: 0 <= k < |s| ==> r[k] == s[|s| - 1 - k]
  {
    seq(|s|, k requires 0 <= k < |s| => s[|s| - 1 - k])
  }

  /** `incident[field] = value`; the id and the units are fields like any
      other, and a (primitive) value written to `units` leaves no array. */
  function SetField(inc: Incident, field: string, value: Value): (r: Incident)
    ensures field == "units" ==> r.units.None? && r.id == inc.id && r.fields == inc.fields
    ensures field != "units" ==> r.units == inc.units
    ensures field == "id" ==> r.id == value && r.fields == inc.fields
    ensures field != "id" && field != "units" ==> r.id == inc.id && r.fields == inc.fields[field := value]
  {
    if field == "id" then inc.(id := value)
    else if field == "units" then inc.(units := None)
    else inc.(fields := inc.fields[field := value])
  }

  /** What one incident becomes under a field update. */
  function Patched(inc: Incident, u: FieldUpdate): Incident
  {
    if inc.id == u.incidentId then SetField(inc, u.field, u.value) else inc
  }

  /** The whole list after a field update. */
  function PatchAll(incs: seq<Incident>, u: FieldUpdate): (r: seq<Incident>)
    ensures |r| == |incs|
    ensures forall k :: 0 <= k < |incs| ==> r[k] == Patched(incs[k], u)
  {
    seq(|incs|, k requires 0 <= k < |incs| => Patched(incs[k], u))
  }

  predicate HasRadio(units: seq<Unit>, radioName: Value)
  {
    exists k :: 0 <= k < |units| && units[k].radioName == radioName
  }

  /** A unit after the update's status has been written over its own. */
  function Restatused(unit: Unit, u: Unit): Unit
  {
    if unit.radioName == u.radioName then unit.(statusId := u.statusId) else unit
  }

  /** The unit list after an "incident-unit-updated" for its incident:
      every unit with the radio name gets the new `statusId`; when there is
      none, a record holding only the radio name and status is appended. */
  function UpsertUnit(units: seq<Unit>, u: Unit): (r: seq<Unit>)
  {
    if HasRadio(units, u.radioName) then
      seq(|units|, k requires 0 <= k < |units| => Restatused(units[k], u))
    else
      units + [Unit(u.radioName, u.statusId, map[])]
  }

  /** What one incident becomes under a unit update. */
  function UnitPatched(inc: Incident, u: UnitUpdate): Incident
  {
    if inc.id == u.incidentId && inc.units.Some? then inc.(units := Some(UpsertUnit(inc.units.value, u.unit)))
    else inc
  }

  /** A matching incident whose `units` is not an array: `units.forEach`
      throws a TypeError there. */
  predicate Broken(inc: Incident, u: UnitUpdate)
  {
    inc.id == u.incidentId && inc.units.None?
  }

  /** Where the `forEach` over the list stops: the first broken incident, or
      the end of the list. */
  function FirstBroken(incs: seq<Incident>, u: UnitUpdate): (n: nat)
    ensures n <= |incs|
    ensures forall k :: 0 <= k < n ==> !Broken(incs[k], u)
    ensures n < |incs| ==> Broken(incs[n], u)
  {
    if incs == [] then 0
    else if Broken(incs[0], u) then 0
    else
      var n := FirstBroken(incs[1..], u);
      assert forall k :: 1 <= k < |incs| ==> incs[k] == incs[1..][k - 1];
      1 + n
  }

  /** The whole list after a unit update: the incidents before the first
      broken one are patched, that one and those after it are left as they
      were. */
  function UpsertAll(incs: seq<Incident>, u: UnitUpdate): (r: seq<Incident>)
    ensures |r| == |incs|
    ensures forall k :: 0 <= k < |incs| ==>
              r[k] == (if k < FirstBroken(incs, u) then UnitPatched(incs[k], u) else incs[k])
  {
    var n := FirstBroken(incs, u);
    seq(|incs|, k requires 0 <= k < |incs| => if k < n then UnitPatched(incs[k], u) else incs[k])
  }

  function CountId(incs: seq<Incident>, id: Value): nat
  {
    if incs == [] then 0 else (if incs[0].id == id then 1 else 0) + CountId(incs[1..], id)
  }

  // ------------------------------------------------------------ the component

  /** The component's `incidents` data field; `None` is the initial null,
      before `loadIncidents` has stored the fetched list. Each handler returns
      `ok == false` when it ran against the null list, where the source throws
      a TypeError before changing anything. */
  class Board {
    var incidents: Option<seq<Incident>>

    constructor ()
      ensures incidents == None
    {
      incidents := None;
    }

    /** `loadIncidents` once the fetch has resolved with `data`: a reversed
        copy is stored, `data` itself is a value and stays as it was. */
    method LoadIncidents(data: seq<Incident>)
      modifies this
      ensures incidents == Some(Reversed(data))
    {
      incidents := Some(Reversed(data));
    }

    /** `onIncidentAdded`: `unshift`, with no check for an id already listed. */
    method OnIncidentAdded(incident: Incident) returns (ok: bool)
      modifies this
      ensures ok <==> old(incidents).Some?
      ensures ok ==> incidents == Some([incident] + old(incidents).value)
      ensures !ok ==> incidents == old(incidents)
    {
      if incidents.None? {
        return false;
      }
      incidents := Some([incident] + incidents.value);
      ok := true;
    }

    /** `onIncidentUpdated`: every incident whose id matches gets the field. */
    method OnIncidentUpdated(update: FieldUpdate) returns (ok: bool)
      modifies this
      ensures ok <==> old(incidents).Some?
      ensures ok ==> incidents == Some(PatchAll(old(incidents).value, update))
      ensures !ok ==> incidents == old(incidents)
    {
      if incidents.None? {
        return false;
      }
      ghost var orig := incidents.value;
      var i := 0;
      while i < |incidents.value|
        invariant incidents.Some? && |incidents.value| == |orig|
        invariant 0 <= i <= |orig|
        invariant forall k :: 0 <= k < i ==> incidents.value[k] == Patched(orig[k], update)
        invariant forall k :: i <= k < |orig| ==> incidents.value[k] == orig[k]
      {
        var incident := incidents.value[i];
        if incident.id == update.incidentId {
          incidents := Some(incidents.value[i := SetField(incident, update.field, update.value)]);
        }
        i := i + 1;
      }
      assert incidents.value == PatchAll(orig, update);
      ok := true;
    }

    /** `onIncidentUnitUpdated`: in each incident with the id, every unit with
        the radio name has its `statusId` overwritten; the `newUnit` flag
        records whether any did, and if none did a new unit is pushed. A
        matching incident without a units array throws, after the incidents
        before it have been handled. */
    method OnIncidentUnitUpdated(update: UnitUpdate) returns (ok: bool)
      modifies this
      ensures ok <==> old(incidents).Some? && FirstBroken(old(incidents).value, update) == |old(incidents).value|
      ensures old(incidents).Some? ==> incidents == Some(UpsertAll(old(incidents).value, update))
      ensures old(incidents).None? ==> incidents == old(incidents)
    {
      if incidents.None? {
        return false;
      }
      ghost var orig := incidents.value;
      var i := 0;
      while i < |incidents.value|
        invariant incidents.Some? && |incidents.value| == |orig|
        invariant 0 <= i <= |orig|
        invariant forall k :: 0 <= k < i ==> incidents.value[k] == UnitPatched(orig[k], update)
        invariant forall k :: 0 <= k < i ==> !Broken(orig[k], update)
        invariant forall k :: i <= k < |orig| ==> incidents.value[k] == orig[k]
      {
        var incident := incidents.value[i];
        if incident.id == update.incidentId {
          if incident.units.None? {
            assert FirstBroken(orig, update) == i;
            assert incidents.value == UpsertAll(orig, update);
            return false;
          }
          var units := incident.units.value;
          var newUnit := true;
          var j := 0;
          while j < |units|
            invariant 0 <= j <= |units| == |incident.units.value|
            invariant newUnit <==> !exists k :: 0 <= k < j && incident.units.value[k].radioName == update.unit.radioName
            invariant forall k :: 0 <= k < j ==> units[k] == Restatused(incident.units.value[k], update.unit)
            invariant forall k :: j <= k < |units| ==> units[k] == incident.units.value[k]
          {
            if units[j].radioName == update.unit.radioName {
              units := units[j := units[j].(statusId := update.unit.statusId)];
              newUnit := false;
            }
            j := j + 1;
          }
          if newUnit {
            units := units + [Unit(update.unit.radioName, update.unit.statusId, map[])];
          }
          assert units == UpsertUnit(incident.units.value, update.unit);
          incidents := Some(incidents.value[i := incident.(units := Some(units))]);
        }
        i := i + 1;
      }
      assert FirstBroken(orig, update) == |orig|;
      assert incidents.value == UpsertAll(orig, update);
      ok := true;
    }
  }

  // ------------------------------------------------------------ properties

  /** Adding an incident whose id is already listed lists it once more. */
  lemma {:induction false} AddDoesNotDeduplicate(incs: seq<Incident>, incident: Incident)
    ensures CountId([incident] + incs, incident.id) == CountId(incs, incident.id) + 1
  {
    assert ([incident] + incs)[1..] == incs;
  }

  /** A field update changes only the named field of the matching incidents:
      other incidents, other fields, length and order stay; the units stay
      unless the field is "units", which leaves no array behind. */
  lemma FieldUpdateIsLocal(incs: seq<Incident>, u: FieldUpdate, k: nat)
    requires k < |incs| && u.field != "id"
    ensures |PatchAll(incs, u)| == |incs|
    ensures var r := PatchAll(incs, u)[k];
            r.id == incs[k].id &&
            (incs[k].id == u.incidentId && u.field != "units" ==>
               r.fields == incs[k].fields[u.field := u.value] && r.units == incs[k].units) &&
            (incs[k].id == u.incidentId && u.field == "units" ==>
               r.fields == incs[k].fields && r.units.None?) &&
            (incs[k].id != u.incidentId ==> r == incs[k])
  {
  }

  /** Overwriting `units` of a listed incident makes the next unit update for
      that id throw there. */
  lemma UnitsOverwriteBreaksUnitUpdate(incs: seq<Incident>, id: Value, value: Value, unit: Unit, k: nat)
    requires k < |incs| && incs[k].id == id
    ensures FirstBroken(UpsertAll(PatchAll(incs, FieldUpdate(id, "units", value)), UnitUpdate(id, unit)), UnitUpdate(id, unit))
            <= k < |incs|
  {
    var u := UnitUpdate(id, unit);
    var patched := PatchAll(incs, FieldUpdate(id, "units", value));
    assert Broken(patched[k], u);
    var after := UpsertAll(patched, u);
    var n := FirstBroken(patched, u);
    assert n <= k;
    assert after[n] == patched[n];
    assert Broken(after[n], u);
  }

  /** A field update for an id nobody has is a no-op. */
  lemma FieldUpdateUnknownId(incs: seq<Incident>, u: FieldUpdate)
    requires forall k :: 0 <= k < |incs| ==> incs[k].id != u.incidentId
    ensures PatchAll(incs, u) == incs
  {
  }

  /** In a matching incident, every unit with the radio name gets the new
      status and keeps its other fields; all other units stay. */
  lemma UpsertOverwritesStatus(units: seq<Unit>, u: Unit, k: nat)
    requires k < |units| && HasRadio(units, u.radioName)
    ensures |UpsertUnit(units, u)| == |units|
    ensures var r := UpsertUnit(units, u)[k];
            (units[k].radioName == u.radioName ==>
               r.statusId == u.statusId && r.radioName == units[k].radioName && r.fields == units[k].fields) &&
            (units[k].radioName != u.radioName ==> r == units[k])
  {
  }

  /** When no unit has the radio name, exactly one record with just the radio
      name and status is appended at the end. */
  lemma UpsertAppendsNewUnit(units: seq<Unit>, u: Unit)
    requires !HasRadio(units, u.radioName)
    ensures var r := UpsertUnit(units, u);
            |r| == |units| + 1 && r[..|units|] == units &&
            r[|units|] == Unit(u.radioName, u.statusId, map[])
  {
  }

  /** After an upsert the radio name is present. */
  lemma UpsertHasRadio(units: seq<Unit>, u: Unit)
    ensures HasRadio(UpsertUnit(units, u), u.radioName)
  {
    var r := UpsertUnit(units, u);
    if HasRadio(units, u.radioName) {
      var k :| 0 <= k < |units| && units[k].radioName == u.radioName;
      assert r[k].radioName == u.radioName;
    } else {
      assert r[|units|].radioName == u.radioName;
    }
  }

  /** Upserting the same unit twice is the same as upserting it once. */
  lemma UpsertIdempotent(units: seq<Unit>, u: Unit)
    ensures UpsertUnit(UpsertUnit(units, u), u) == UpsertUnit(units, u)
  {
    var once := UpsertUnit(units, u);
    UpsertHasRadio(units, u);
    var twice := UpsertUnit(once, u);
    assert |twice| == |once|;
    forall k | 0 <= k < |once| ensures twice[k] == once[k] {
      if !HasRadio(units, u.radioName) && k == |units| {
        assert once[k] == Unit(u.radioName, u.statusId, map[]);
      }
    }
  }

  /** A unit update stops at the same incident however often it is applied. */
  lemma UpsertAllStopsAtSamePlace(incs: seq<Incident>, u: UnitUpdate)
    ensures FirstBroken(UpsertAll(incs, u), u) == FirstBroken(incs, u)
  {
    var once := UpsertAll(incs, u);
    var n := FirstBroken(incs, u);
    forall k | 0 <= k < n ensures !Broken(once[k], u) {
      assert once[k] == UnitPatched(incs[k], u);
    }
    if n < |incs| {
      assert once[n] == incs[n];
    }
  }

  /** Applying the same unit update twice to the list is the same as once. */
  lemma UnitUpdateIdempotent(incs: seq<Incident>, u: UnitUpdate)
    ensures UpsertAll(UpsertAll(incs, u), u) == UpsertAll(incs, u)
  {
    var once := UpsertAll(incs, u);
    UpsertAllStopsAtSamePlace(incs, u);
    forall k | 0 <= k < |incs| ensures UpsertAll(once, u)[k] == once[k] {
      if k < FirstBroken(incs, u) && incs[k].id == u.incidentId && incs[k].units.Some? {
        UpsertIdempotent(incs[k].units.value, u.unit);
      }
    }
  }

  /** A unit update touches only the units of matching incidents. */
  lemma UnitUpdateIsLocal(incs: seq<Incident>, u: UnitUpdate, k: nat)
    requires k < |incs|
    ensures |UpsertAll(incs, u)| == |incs|
    ensures var r := UpsertAll(incs, u)[k];
            r.id == incs[k].id && r.fields == incs[k].fields &&
            (incs[k].id != u.incidentId ==> r == incs[k])
  {
  }

  /** Reversing the reversed list gives the fetched order back. */
  lemma ReversedTwice(s: seq<Incident>)
    ensures Reversed(Reversed(s)) == s
  {
  }
}
