/** The dashboard hub plugin: each handler registered on the SignalR
    connection turns one inbound hub message into the events it emits on the
    dashboard's event bus, and a small set of closure flags decides whether a
    closed connection is restarted. */
module DashboardHub {
  import opened JsBuiltins

  /** A plain object as `Object.entries` lists it: keys in enumeration order. */
  type Entries = seq<(string, Value)>

  /** One message pushed by the hub, with its arguments. */
  datatype HubMessage =
    | IncidentAdded(incident: Entries)
    | IncidentFieldChanged(incidentId: Value, field: string, value: Value)
    | IncidentRemoved(incidentId: Value)
    | IncidentsRemoved(incidentIds: seq<Value>)
    | IncidentCommentAdded(incidentId: Value, comment: Entries)
    | IncidentUnitStatusChanged(incidentId: Value, unit: Entries)
    | UnitStatusChanged(radioName: Value, statusId: Value)
    | UnitFieldChanged(radioName: Value, field: string, value: Value)

  /** One event emitted on the bus, with its payload. */
  datatype HubEvent =
    | IncidentAddedEvent(incident: Entries)
    | IncidentUpdatedEvent(incidentId: Value, field: string, value: Value)
    | IncidentRemovedEvent(incidentId: Value)
    | IncidentsRemovedEvent(incidentIds: seq<Value>)
    | IncidentCommentAddedEvent(incidentId: Value, comment: Entries)
    | IncidentUnitUpdatedEvent(incidentId: Value, unit: Entries)
    | UnitUpdatedEvent(radioName: Value, field: string, value: Value)
    | Disconnected

  /** The name each event is emitted under. */
  function EventName(e: HubEvent): string
  {
    match e
    case IncidentAddedEvent(_) => "incident-added"
    case IncidentUpdatedEvent(_, _, _) => "incident-updated"
    case IncidentRemovedEvent(_) => "incident-removed"
    case IncidentsRemovedEvent(_) => "incidents-removed"
    case IncidentCommentAddedEvent(_, _) => "incident-comment-added"
    case IncidentUnitUpdatedEvent(_, _) => "incident-unit-updated"
    case UnitUpdatedEvent(_, _, _) => "unit-updated"
    case Disconnected => "disconnected"
  }

  const RadioNameKey := "radioName"

  /** `field.charAt(0).toLowerCase() + field.slice(1)`. */
  function LowerFirst(field: string): (r: string)
    ensures |r| == |field|
    ensures field == [] ==> r == []
    ensures field != [] ==> r[0] == LowerChar(field[0]) && r[1..] == field[1..]
  {
    if field == [] then [] else [LowerChar(field[0])] + field[1..]
  }

  /** Lower-casing the first letter twice is lower-casing it once. */
  lemma LowerFirstIdempotent(field: string)
    ensures LowerFirst(LowerFirst(field)) == LowerFirst(field)
  {
  }

  /** A name that already starts in lower case passes through. */
  lemma LowerFirstKeepsCamelCase(field: string)
    requires field != [] && !IsUpper(field[0])
    ensures LowerFirst(field) == field
  {
    assert LowerFirst(field) == [field[0]] + field[1..];
  }

  /** `unit.radioName`: the value of the first entry with that key, undefined
      when the object has none. */
  function Lookup(obj: Entries, key: string): (r: Value)
    ensures (forall k :: 0 <= k < |obj| ==> obj[k].0 != key) ==> r == Undefined
    ensures forall k :: 0 <= k < |obj| && obj[k].0 == key && (forall j :: 0 <= j < k ==> obj[j].0 != key) ==>
              r == obj[k].1
  {
    if obj == [] then Undefined
    else if obj[0].0 == key then obj[0].1
    else
      assert forall k :: 1 <= k < |obj| ==> obj[k] == obj[1..][k - 1];
      Lookup(obj[1..], key)
  }

  /** The unit's entries other than `radioName`, in order. */
  function NonRadioEntries(unit: Entries): (r: Entries)
    ensures |r| <= |unit|
    ensures forall k :: 0 <= k < |r| ==> r[k].0 != RadioNameKey && r[k] in unit
    ensures forall e :: e in unit && e.0 != RadioNameKey ==> e in r
  {
    if unit == [] then []
    else if unit[0].0 == RadioNameKey then NonRadioEntries(unit[1..])
    else [unit[0]] + NonRadioEntries(unit[1..])
  }

  /** A single entry is kept exactly when it is not `radioName`. */
  lemma NonRadioEntriesSingle(e: (string, Value))
    ensures NonRadioEntries([e]) == if e.0 == RadioNameKey then [] else [e]
  {
    assert [e][1..] == [];
  }

  /** Filtering out `radioName` distributes over concatenation; with
      `NonRadioEntriesSingle`, the kept entries are all of the others, in
      their order. */
  lemma {:induction false} NonRadioEntriesConcat(a: Entries, b: Entries)
    ensures NonRadioEntries(a + b) == NonRadioEntries(a) + NonRadioEntries(b)
    decreases |a|
  {
    if a == [] {
      assert a + b == b;
    } else {
      assert (a + b)[0] == a[0] && (a + b)[1..] == a[1..] + b;
      NonRadioEntriesConcat(a[1..], b);
      if a[0].0 != RadioNameKey {
        assert [a[0]] + (NonRadioEntries(a[1..]) + NonRadioEntries(b))
            == ([a[0]] + NonRadioEntries(a[1..])) + NonRadioEntries(b);
      }
    }
  }

  /** How many entries carry `key`. */
  function CountKey(unit: Entries, key: string): nat
  {
    if unit == [] then 0 else (if unit[0].0 == key then 1 else 0) + CountKey(unit[1..], key)
  }

  /** Every entry is either `radioName` or fanned out. */
  lemma {:induction false} NonRadioEntriesCount(unit: Entries)
    ensures |NonRadioEntries(unit)| + CountKey(unit, RadioNameKey) == |unit|
  {
    if unit != [] {
      NonRadioEntriesCount(unit[1..]);
    }
  }

  /** The `for … of Object.entries(unit)` loop: one "unit-updated" per entry
      other than `radioName`, in key order, with the key as written. */
  function FanOut(radioName: Value, unit: Entries): (r: seq<HubEvent>)
    ensures |r| == |NonRadioEntries(unit)|
    ensures forall k :: 0 <= k < |r| ==>
              r[k] == UnitUpdatedEvent(radioName, NonRadioEntries(unit)[k].0, NonRadioEntries(unit)[k].1)
  {
    if unit == [] then []
    else if unit[0].0 == RadioNameKey then FanOut(radioName, unit[1..])
    else [UnitUpdatedEvent(radioName, unit[0].0, unit[0].1)] + FanOut(radioName, unit[1..])
  }

  /** The events one hub message produces, in emission order. */
  function Normalize(msg: HubMessage): (r: seq<HubEvent>)
    ensures msg.IncidentUnitStatusChanged? ==>
              |r| >= 1 && r[0] == IncidentUnitUpdatedEvent(msg.incidentId, msg.unit)
              && r[1..] == FanOut(Lookup(msg.unit, RadioNameKey), msg.unit)
    ensures !msg.IncidentUnitStatusChanged? ==> |r| == 1
    ensures msg.IncidentFieldChanged? ==> r == [IncidentUpdatedEvent(msg.incidentId, LowerFirst(msg.field), msg.value)]
    ensures msg.UnitFieldChanged? ==> r == [UnitUpdatedEvent(msg.radioName, LowerFirst(msg.field), msg.value)]
    ensures msg.UnitStatusChanged? ==> r == [UnitUpdatedEvent(msg.radioName, "statusId", msg.statusId)]
    ensures msg.IncidentRemoved? ==> r == [IncidentRemovedEvent(msg.incidentId)]
    ensures msg.IncidentsRemoved? ==> r == [IncidentsRemovedEvent(msg.incidentIds)]
    ensures msg.IncidentAdded? ==> r == [IncidentAddedEvent(msg.incident)]
    ensures msg.IncidentCommentAdded? ==> r == [IncidentCommentAddedEvent(msg.incidentId, msg.comment)]
    ensures forall k :: 0 <= k < |r| ==> !r[k].Disconnected?
  {
    match msg
    case IncidentAdded(incident) => [IncidentAddedEvent(incident)]
    case IncidentFieldChanged(id, field, value) => [IncidentUpdatedEvent(id, LowerFirst(field), value)]
    case IncidentRemoved(id) => [IncidentRemovedEvent(id)]
    case IncidentsRemoved(ids) => [IncidentsRemovedEvent(ids)]
    case IncidentCommentAdded(id, comment) => [IncidentCommentAddedEvent(id, comment)]
    case IncidentUnitStatusChanged(id, unit) =>
      [IncidentUnitUpdatedEvent(id, unit)] + FanOut(Lookup(unit, RadioNameKey), unit)
    case UnitStatusChanged(radioName, statusId) => [UnitUpdatedEvent(radioName, "statusId", statusId)]
    case UnitFieldChanged(radioName, field, value) => [UnitUpdatedEvent(radioName, LowerFirst(field), value)]
  }

  /** A unit-status message for a unit object with one `radioName` entry emits
      one incident event and one unit event per remaining field, each naming
      that unit. */
  lemma {:induction false} UnitStatusFanOutSize(incidentId: Value, unit: Entries)
    requires CountKey(unit, RadioNameKey) == 1
    ensures |Normalize(IncidentUnitStatusChanged(incidentId, unit))| == |unit|
    ensures forall k :: 1 <= k < |unit| ==>
              Normalize(IncidentUnitStatusChanged(incidentId, unit))[k].radioName == Lookup(unit, RadioNameKey)
  {
    NonRadioEntriesCount(unit);
  }

  /** The field names the fan-out emits are the unit's own keys, not
      lower-cased: a key "StatusId" is emitted as "StatusId". */
  lemma FanOutKeepsKeys(radioName: Value, key: string, value: Value)
    requires key != RadioNameKey
    ensures FanOut(radioName, [(key, value)]) == [UnitUpdatedEvent(radioName, key, value)]
  {
  }

  /** The server's PascalCase field names reach the incident list in camelCase. */
  lemma FieldChangedExample(id: Value, value: Value)
    ensures Normalize(IncidentFieldChanged(id, "StatusId", value)) ==
            [IncidentUpdatedEvent(id, "statusId", value)]
  {
    assert LowerChar('S') == 's';
    assert "StatusId"[1..] == "tatusId";
    assert LowerFirst("StatusId") == ['s'] + "tatusId" == "statusId";
  }

  /** The closure flags: `$_connection` built, `$_startedPromise` set, and
      `$_manuallyClosed`. */
  datatype Flags = Flags(connectionBuilt: bool, started: bool, manuallyClosed: bool)

  /** `startSignalR`: build the connection, clear the manual-close flag and
      start (`$_start` always leaves a promise in `$_startedPromise`). */
  function AfterStart(f: Flags): (g: Flags)
    ensures g.connectionBuilt && g.started && !g.manuallyClosed
  {
    Flags(true, true, false)
  }

  /** `stopSignalR`, once its promise chain has run: nothing when the hub was
      never started, otherwise mark the close as manual and drop the promise. */
  function AfterStop(f: Flags): (g: Flags)
    ensures !f.started ==> g == f
    ensures f.started ==> g.manuallyClosed && !g.started && g.connectionBuilt == f.connectionBuilt
  {
    if !f.started then f else f.(manuallyClosed := true, started := false)
  }

  /** Whether the close handler calls `$_start` again. */
  function RestartsOnClose(f: Flags): (restart: bool)
    ensures restart <==> !f.manuallyClosed
  {
    !f.manuallyClosed
  }

  /** The close handler's effect on the flags. */
  function AfterClose(f: Flags): (g: Flags)
    ensures RestartsOnClose(f) ==> g.started
    ensures g.manuallyClosed == f.manuallyClosed && g.connectionBuilt == f.connectionBuilt
  {
    if RestartsOnClose(f) then f.(started := true) else f
  }

  /** A close that follows `stopSignalR` is not answered with a restart. */
  lemma StopThenCloseStaysClosed(f: Flags)
    requires f.started
    ensures !RestartsOnClose(AfterStop(f))
    ensures !AfterClose(AfterStop(f)).started
  {
  }

  /** A close the dashboard did not ask for always restarts, and so does one
      after the hub was started again following a stop. */
  lemma UnplannedCloseRestarts(f: Flags)
    ensures RestartsOnClose(AfterStart(f))
    ensures RestartsOnClose(AfterStart(AfterStop(AfterStart(f))))
  {
  }

  /** The hub closure: its flags and what it has emitted or started. */
  class HubLifecycle {
    var connectionBuilt: bool
    var started: bool
    var manuallyClosed: bool
    /** How many times `$_start` has been called. */
    var startCalls: nat

    function State(): Flags
      reads this
    {
      Flags(connectionBuilt, started, manuallyClosed)
    }

    /** `install`: no connection, no promise, not manually closed. */
    constructor()
      ensures State() == Flags(false, false, false) && startCalls == 0
    {
      connectionBuilt := false;
      started := false;
      manuallyClosed := false;
      startCalls := 0;
    }

    method StartSignalR()
      modifies this
      ensures State() == AfterStart(old(State()))
      ensures startCalls == old(startCalls) + 1
    {
      connectionBuilt := true;
      manuallyClosed := false;
      started := true;
      startCalls := startCalls + 1;
    }

    /** Returns whether it did anything (the source returns undefined when
        there is no started promise). */
    method StopSignalR() returns (acted: bool)
      modifies this
      ensures acted == old(started)
      ensures State() == AfterStop(old(State()))
      ensures startCalls == old(startCalls)
    {
      if !started {
        return false;
      }
      manuallyClosed := true;
      started := false;
      acted := true;
    }

    /** The `onclose` handler: always emits "disconnected", and restarts
        unless the close was manual. */
    method OnClose() returns (emitted: seq<HubEvent>, restarted: bool)
      modifies this
      ensures emitted == [Disconnected]
      ensures restarted == RestartsOnClose(old(State()))
      ensures State() == AfterClose(old(State()))
      ensures startCalls == old(startCalls) + (if restarted then 1 else 0)
    {
      emitted := [Disconnected];
      restarted := !manuallyClosed;
      if restarted {
        started := true;
        startCalls := startCalls + 1;
      }
    }
  }
}
