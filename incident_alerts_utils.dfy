/** The alerts component's own utility: the icon for a call type. Its status
    table, `getUnitStatus`, `getUnitIncidentStatus` and `parseShiftTimes` are
    copies of the incidents component's and are modelled in IncidentsUtils. */
module IncidentAlertsUtils {
  import opened JsBuiltins

  /** `CALLTYPE_ICON_MAP`. */
  const CallTypeIcons: map<string, string> :=
    map["medical" := "medical.png", "fire" := "fire.png", "other" := "other.png"]

  const IconDir := "./icons/"
  const DefaultIcon := "fire.png"

  /** `getIncidentIcon`: the icon path for a call type, "fire.png" for a call
      type the map does not know or a missing one (`None`). */
  function GetIncidentIcon(callType: Option<string>): (r: string)
    ensures callType == Some("medical") ==> r == "./icons/medical.png"
    ensures callType == Some("fire") ==> r == "./icons/fire.png"
    ensures callType == Some("other") ==> r == "./icons/other.png"
    ensures callType.None? || callType.value !in {"medical", "fire", "other"} ==> r == "./icons/fire.png"
    ensures |r| > 12 && r[..8] == "./icons/" && r[|r| - 4..] == ".png"
  {
    var file := if callType.Some? && callType.value in CallTypeIcons then CallTypeIcons[callType.value]
                else DefaultIcon;
    IconDir + file
  }
}
