/** Unit status codes and the shift-time parser of the incidents component.
    The alerts component's utilities carry a character-for-character copy of
    the status table, `getUnitIncidentStatus`, `getUnitStatus` and
    `parseShiftTimes`, and the swim-lane roster repeats `parseShiftTimes`;
    this module models all the copies. */
module IncidentsUtils {
  import opened JsBuiltins

  /** The `code` column of the 23-entry unit status table, by status id. */
  const UnitStatusCodes: seq<string> := [
    "OFF", "AV", "IQ", "RES", "--", "BUSY", "D", "ER", "ED", "ST", "OS", "AI",
    "TO", "AT", "01", "AE", "SS", "OD", "MA", "D2", "E2", "O2", "clear"
  ]

  /** The status id that `getUnitIncidentStatus` shows in place of 1 ("AV"). */
  const ClearStatusId := 22

  predicate IsStatusId(id: int) { 0 <= id < |UnitStatusCodes| }

  /** The first row at or after `k` whose index reads as `s`. */
  function RowNamed(s: string, k: nat): (row: Option<nat>)
    ensures row.Some? ==> k <= row.value < |UnitStatusCodes| && s == NatToString(row.value)
    ensures row.None? ==> forall j :: k <= j < |UnitStatusCodes| ==> s != NatToString(j)
    decreases |UnitStatusCodes| - k
  {
    if k >= |UnitStatusCodes| then None
    else if s == NatToString(k) then Some(k)
    else RowNamed(s, k + 1)
  }

  /** The row of the status table that `UNIT_STATUS_MAPPING[id]` reads. The
      key is the id as a property name: a number inside the table, or a
      string that is exactly the decimal name of a row ("6", not "06").
      Every other id reads `undefined`. */
  function StatusRow(id: Value): (row: Option<nat>)
    ensures row.Some? ==> IsStatusId(row.value)
    ensures id.Num? ==> (row.Some? <==> IsStatusId(id.n)) && (row.Some? ==> row.value == id.n)
    ensures id.Str? ==> (row.Some? <==> exists j :: IsStatusId(j) && id.s == NatToString(j))
    ensures id.Str? && row.Some? ==> id.s == NatToString(row.value)
    ensures !id.Num? && !id.Str? ==> row.None?
  {
    match id
    case Num(n) => if IsStatusId(n) then Some(n) else None
    case Str(s) =>
      var row := RowNamed(s, 0);
      assert row.Some? ==> IsStatusId(row.value) && s == NatToString(row.value);
      assert row.None? ==> forall j :: IsStatusId(j) ==> s != NatToString(j);
      row
    case _ => None
  }

  /** The search stops at the first row whose index reads as `s`. */
  lemma {:induction false} RowNamedFinds(s: string, k: nat, d: nat)
    requires k <= d < |UnitStatusCodes| && s == NatToString(d)
    requires forall j :: k <= j < d ==> s != NatToString(j)
    ensures RowNamed(s, k) == Some(d)
    decreases d - k
  {
    if k < d {
      RowNamedFinds(s, k + 1, d);
    }
  }

  /** A one-digit string names its own row. */
  lemma RowOfDigit(d: nat)
    requires d < 10
    ensures StatusRow(Str([DigitChar(d)])) == Some(d)
  {
    forall j | 0 <= j < d ensures [DigitChar(d)] != NatToString(j) {
      assert NatToString(j) == [DigitChar(j)];
    }
    RowNamedFinds([DigitChar(d)], 0, d);
  }

  /** `getUnitStatus`: the lower-cased code of the row the id names; an id
      that names no row makes `.code` throw a TypeError. */
  function GetUnitStatus(id: Value): (r: Result<string>)
    ensures r.Success? <==> StatusRow(id).Some?
    ensures r.Failure? ==> r.error == TypeError
    ensures r.Success? ==> var code := UnitStatusCodes[StatusRow(id).value];
              |r.value| == |code| && (forall i :: 0 <= i < |code| ==> r.value[i] == LowerChar(code[i]))
              && ToLower(r.value) == r.value
  {
    match StatusRow(id)
    case None => Failure(TypeError)
    case Some(row) => Success(ToLower(UnitStatusCodes[row]))
  }

  /** `getUnitIncidentStatus`: the number 1 is shown as "clear" (row 22);
      every other id, the string "1" included, as its own row's code. */
  function GetUnitIncidentStatus(id: Value): (r: Result<string>)
    ensures id == Num(1) ==> r == Success("clear")
    ensures id != Num(1) ==> r == GetUnitStatus(id)
  {
    assert ToLower(UnitStatusCodes[ClearStatusId]) == "clear";
    GetUnitStatus(if id == Num(1) then Num(ClearStatusId) else id)
  }

  lemma UnitIncidentStatusExamples()
    ensures GetUnitIncidentStatus(Num(6)) == Success("d")
    ensures GetUnitIncidentStatus(Num(10)) == Success("os")
    ensures GetUnitIncidentStatus(Num(0)) == Success("off")
    ensures GetUnitStatus(Num(1)) == Success("av")
  {
    assert ToLower("D") == "d";
    assert ToLower("OS") == "os";
    assert ToLower("OFF") == "off";
    assert ToLower("AV") == "av";
  }

  /** A string id names the same row as its number, but only the number 1
      is remapped: "1" shows as "av". */
  lemma StringOneIsNotRemapped()
    ensures GetUnitIncidentStatus(Str("1")) == Success("av")
  {
    RowOfDigit(1);
    assert [DigitChar(1)] == "1";
    assert ToLower("AV") == "av";
  }

  /** The string "6" shows as "d", like the number 6. */
  lemma StringSixIsItsRow()
    ensures GetUnitIncidentStatus(Str("6")) == Success("d")
  {
    RowOfDigit(6);
    assert [DigitChar(6)] == "6";
    assert ToLower("D") == "d";
  }

  /** An id that names no row throws: past the table, negative, or not a
      number or string. */
  lemma UnknownStatusThrows()
    ensures GetUnitIncidentStatus(Num(23)) == Failure(TypeError)
    ensures GetUnitIncidentStatus(Num(-1)) == Failure(TypeError)
    ensures GetUnitIncidentStatus(Null) == Failure(TypeError)
    ensures GetUnitIncidentStatus(Undefined) == Failure(TypeError)
  {
  }

  /** `parseShiftTimes`: drop the ten-character date, trim, split on spaces;
      when the second word is "PM" and the hour is not 12, add 12 to the
      hour. `None` is a null or undefined argument. */
  function ParseShiftTimes(str: Option<string>): (r: string)
    ensures str.None? || |str.value| <= 10 ==> r == ""
    ensures var parts := ShiftWords(str);
            !(|parts| > 1 && parts[1] == "PM") ==> r == parts[0]
  {
    FromWords(ShiftWords(str))
  }

  /** The 12-hour rule applied to the words of a shift time. */
  function FromWords(parts: seq<string>): string
    requires |parts| >= 1
  {
    if |parts| > 1 && parts[1] == "PM" then
      var p := Split(parts[0], ':');
      if StringToNumber(p[0]) == Some(12) then parts[0]
      else HourPlusTwelve(p[0]) + ":" + (if |p| > 1 then p[1] else "undefined")
    else
      parts[0]
  }

  /** `(str || "").slice(10).trim().split(" ")`. */
  function ShiftWords(str: Option<string>): (parts: seq<string>)
    ensures |parts| >= 1
    ensures str.None? || |str.value| <= 10 ==> parts == [""]
  {
    var s := if str.Some? then str.value else "";
    var rest := if |s| >= 10 then s[10..] else "";
    Split(Trim(rest), ' ')
  }

  /** `(parseInt(h) + 12).toString()`, where NaN prints as "NaN". */
  function HourPlusTwelve(h: string): string
  {
    match ParseInt(h)
    case Some(v) => IntToString(v + 12)
    case None => "NaN"
  }

  lemma NoCharIn(s: string, c: char)
    requires IsDigits(s) && !IsDigit(c)
    ensures c !in s
  {
    assert forall i :: 0 <= i < |s| ==> IsDigit(s[i]);
  }

  /** The words of a well-formed dispatch time are the time and the meridiem. */
  lemma {:induction false} ShiftWordsWellFormed(date: string, time: string, meridiem: string)
    requires |date| == 10 && time != [] && !IsJsSpace(time[0]) && ' ' !in time
    requires meridiem == "AM" || meridiem == "PM"
    ensures ShiftWords(Some(date + " " + time + " " + meridiem)) == [time, meridiem]
  {
    var s := date + " " + time + " " + meridiem;
    var x := time + " " + meridiem;
    assert s[10..] == [' '] + x;
    TrimLeadingSpace(' ', x);
    assert x[0] == time[0];
    assert x[|x| - 1] == 'M';
    TrimUnchanged(x);
    SplitAt(time, ' ', meridiem);
    SplitNoSep(meridiem, ' ');
  }

  /** A time in the dispatch format "MM/DD/YYYY hh:mm AM|PM" parses to the
      24-hour "hh:mm": 12 is added to a PM hour other than 12, and AM times
      (12 AM included) come back as written. */
  lemma {:induction false} ParseShiftTimesWellFormed(date: string, h: string, m: string, meridiem: string)
    requires |date| == 10
    requires h != [] && IsDigits(h) && m != [] && IsDigits(m)
    requires meridiem == "AM" || meridiem == "PM"
    ensures ParseShiftTimes(Some(date + " " + h + ":" + m + " " + meridiem)) ==
            if meridiem == "PM" && DigitsValue(h) != 12
            then IntToString(DigitsValue(h) + 12) + ":" + m
            else h + ":" + m
  {
    var time := h + ":" + m;
    NoCharIn(h, ' ');
    NoCharIn(m, ' ');
    assert ' ' !in time;
    assert time[0] == h[0];
    assert date + " " + h + ":" + m + " " + meridiem == date + " " + time + " " + meridiem;
    ShiftWordsWellFormed(date, time, meridiem);
    FromWordsWellFormed(h, m, meridiem);
  }

  lemma {:induction false} FromWordsWellFormed(h: string, m: string, meridiem: string)
    requires h != [] && IsDigits(h) && m != [] && IsDigits(m)
    requires meridiem == "AM" || meridiem == "PM"
    ensures FromWords([h + ":" + m, meridiem]) ==
            if meridiem == "PM" && DigitsValue(h) != 12
            then IntToString(DigitsValue(h) + 12) + ":" + m
            else h + ":" + m
  {
    if meridiem == "PM" {
      var p := Split(h + ":" + m, ':');
      SplitHourMinute(h, m);
      assert |p| > 1 && p[0] == h && p[1] == m;
      DigitsParse(h);
    } else {
      assert meridiem != "PM";
    }
  }

  /** A digit string reads as its value under both `Number` and `parseInt`. */
  lemma DigitsParse(h: string)
    requires h != [] && IsDigits(h)
    ensures StringToNumber(h) == Some(DigitsValue(h))
    ensures ParseInt(h) == Some(DigitsValue(h))
  {
  }

  /** A time "hh:mm" splits on the colon into its hour and minute. */
  lemma SplitHourMinute(h: string, m: string)
    requires IsDigits(h) && IsDigits(m)
    ensures Split(h + ":" + m, ':') == [h, m]
  {
    NoCharIn(h, ':');
    NoCharIn(m, ':');
    assert h + ":" + m == h + [':'] + m;
    SplitAt(h, ':', m);
    SplitNoSep(m, ':');
  }

  lemma SevenPlusTwelve()
    ensures IntToString(7 + 12) + ":" + "00" == "19:00"
  {
    assert NatToString(19) == NatToString(1) + [DigitChar(9)];
  }

  /** The source comment's example time in the evening: 07:00 PM becomes 19:00. */
  lemma ParseShiftTimesEvening(date: string)
    requires |date| == 10
    ensures ParseShiftTimes(Some(date + " 07:00 PM")) == "19:00"
  {
    EveningParts(date);
    SevenPlusTwelve();
  }

  lemma EveningParts(date: string)
    requires |date| == 10
    ensures ParseShiftTimes(Some(date + " 07:00 PM")) == IntToString(7 + 12) + ":" + "00"
  {
    assert DigitsValue("07") == 7 by { assert "07"[..1] == "0"; }
    assert date + " 07:00 PM" == date + " " + "07" + ":" + "00" + " " + "PM";
    ParseShiftTimesWellFormed(date, "07", "00", "PM");
  }

  /** Half past noon keeps its hour. */
  lemma ParseShiftTimesNoon(date: string)
    requires |date| == 10
    ensures ParseShiftTimes(Some(date + " 12:30 PM")) == "12" + ":" + "30"
  {
    assert DigitsValue("12") == 12 by { assert "12"[..1] == "1"; }
    assert date + " 12:30 PM" == date + " " + "12" + ":" + "30" + " " + "PM";
    ParseShiftTimesWellFormed(date, "12", "30", "PM");
  }

  /** Half past midnight is not converted either: only PM hours change. */
  lemma ParseShiftTimesMidnight(date: string)
    requires |date| == 10
    ensures ParseShiftTimes(Some(date + " 12:30 AM")) == "12" + ":" + "30"
  {
    assert date + " 12:30 AM" == date + " " + "12" + ":" + "30" + " " + "AM";
    ParseShiftTimesWellFormed(date, "12", "30", "AM");
  }
}
