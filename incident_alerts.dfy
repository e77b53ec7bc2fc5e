/** The alert modal's logic: time padding, the unit status CSS class, the two
    computed properties over the alerted incidents, and the "unalertIncident"
    events it emits. */
module IncidentAlerts {
  import opened JsBuiltins
  import opened IncidentsUtils
  import opened IncidentBoard

  const UnalertEvent := "unalertIncident"
  const StatusClassPrefix := "vwia__unit_status_"

  /** What an emitted "unalertIncident" carries. */
  datatype Payload = IdPayload(id: Value) | IncidentPayload(incident: Incident)

  datatype Emitted = Emitted(event: string, payload: Payload)

  /** `padTime`: `time.toString().padStart(2, "0")`. */
  function PadTime(time: int): (r: string)
    ensures |r| >= 2
    ensures 0 <= time < 10 ==> r == ['0', DigitChar(time)]
    ensures |IntToString(time)| >= 2 ==> r == IntToString(time)
    ensures time >= 0 ==> IsDigits(r) && DigitsValue(r) == time
  {
    var r := PadStart(IntToString(time), 2, '0');
    assert time >= 0 ==> IsDigits(r) && DigitsValue(r) == time by {
      if time >= 0 { PadTwoDigits(time); }
    }
    r
  }

  /** `colorUnit`: the CSS class for a unit status; a status naming no row
      of the table throws. */
  function ColorUnit(statusId: Value): (r: Result<string>)
    ensures statusId == Num(1) ==> r == Success("vwia__unit_status_clear")
    ensures r.Success? <==> StatusRow(statusId).Some? || statusId == Num(1)
    ensures r.Failure? ==> r.error == TypeError
    ensures statusId != Num(1) && r.Success? ==>
              r.value == StatusClassPrefix + ToLower(UnitStatusCodes[StatusRow(statusId).value])
  {
    assert StatusClassPrefix + "clear" == "vwia__unit_status_clear";
    match GetUnitIncidentStatus(statusId)
    case Failure(e) => Failure(e)
    case Success(status) => Success(StatusClassPrefix + status)
  }

  /** The documented string status "1" is not the "clear" class. */
  lemma ColorUnitStringOne()
    ensures ColorUnit(Str("1")) == Success("vwia__unit_status_av")
  {
    StringOneIsNotRemapped();
    assert StatusClassPrefix + "av" == "vwia__unit_status_av";
  }

  /** The computed `numAlertedIncidents`. */
  function NumAlertedIncidents(incidents: seq<Incident>): (n: nat)
    ensures n == |incidents|
  {
    |incidents|
  }

  /** The computed `showAlert`. */
  function ShowAlert(incidents: seq<Incident>): (show: bool)
    ensures show <==> incidents != []
  {
    |incidents| > 0
  }

  /** The modal is shown exactly when it has something to count. */
  lemma ShowAlertMatchesCount(incidents: seq<Incident>)
    ensures ShowAlert(incidents) <==> NumAlertedIncidents(incidents) > 0
  {
  }

  /** `closeAlerts`: the events its `forEach` emits, one per incident with
      that incident's id, in list order. */
  function CloseAlerts(incidents: seq<Incident>): (r: seq<Emitted>)
    ensures |r| == |incidents|
    ensures forall k :: 0 <= k < |incidents| ==> r[k] == Emitted(UnalertEvent, IdPayload(incidents[k].id))
  {
    if incidents == [] then []
    else [Emitted(UnalertEvent, IdPayload(incidents[0].id))] + CloseAlerts(incidents[1..])
  }

  /** `unalert`: one event carrying the whole incident, not its id. */
  function Unalert(incident: Incident): (r: seq<Emitted>)
    ensures |r| == 1 && r[0].event == UnalertEvent && r[0].payload.IncidentPayload?
    ensures r[0].payload.incident == incident
  {
    [Emitted(UnalertEvent, IncidentPayload(incident))]
  }

  lemma PadTimeExamples()
    ensures PadTime(7) == "07"
    ensures PadTime(12) == "12"
  {
    assert DigitChar(7) == '7';
    TwelveAsText();
  }

  lemma TwelveAsText()
    ensures IntToString(12) == "12"
  {
    assert NatToString(12) == NatToString(1) + [DigitChar(2)];
  }
}
