/** Rank classification and the 9-day platoon cycle shared by both roster
    views; their two `utils.js` files carry identical copies of `getRank`,
    `RANK_MAPPINGS` and `getShift`. Dates are day numbers counted from
    1 January 1970. */
module StaffingRules {
  import opened JsBuiltins

  /** One entry of `RANK_MAPPINGS`. */
  datatype RankMapping = RankMapping(rank: string, titles: seq<string>, icon: string)

  const Medic := RankMapping("medic", ["medic", "attendant a"], "user-md")
  const Officer := RankMapping("officer", ["captain", "lieutenant", "officer", "battalion aide", "battalion chief"], "star")
  const Driver := RankMapping("driver", ["dot", "doe"], "car")
  /** The empty title makes this entry match every string. */
  const Firefighter := RankMapping("firefighter", ["firefighter", "attendant b", ""], "fire")

  /** Searched in this order; the first entry with a matching title wins. */
  const RankMappings: seq<RankMapping> := [Medic, Officer, Driver, Firefighter]

  /** `str.replace(/[.+]/g, "")`. */
  function RemoveMarks(s: string): (r: string)
    ensures '.' !in r && '+' !in r
    ensures |r| <= |s|
    ensures forall c :: c in r ==> c in s
    ensures ('.' !in s && '+' !in s) ==> r == s
    ensures forall c :: c in s && c != '.' && c != '+' ==> c in r
  {
    if s == [] then []
    else if s[0] == '.' || s[0] == '+' then RemoveMarks(s[1..])
    else
      var rest := RemoveMarks(s[1..]);
      assert s == [s[0]] + s[1..];
      [s[0]] + rest
  }

  /** A single character is dropped exactly when it is '.' or '+'. */
  lemma RemoveMarksSingle(c: char)
    ensures RemoveMarks([c]) == if c == '.' || c == '+' then [] else [c]
  {
    assert [c][1..] == [];
  }

  /** Removing the marks distributes over concatenation; with
      `RemoveMarksSingle`, the result is `s` with exactly the '.' and '+'
      removed and the other characters in order. */
  lemma {:induction false} RemoveMarksConcat(a: string, b: string)
    ensures RemoveMarks(a + b) == RemoveMarks(a) + RemoveMarks(b)
    decreases |a|
  {
    if a == [] {
      assert a + b == b;
    } else {
      assert (a + b)[0] == a[0] && (a + b)[1..] == a[1..] + b;
      RemoveMarksConcat(a[1..], b);
      if a[0] != '.' && a[0] != '+' {
        assert [a[0]] + (RemoveMarks(a[1..]) + RemoveMarks(b))
            == ([a[0]] + RemoveMarks(a[1..])) + RemoveMarks(b);
      }
    }
  }

  /** The title as `getRank` compares it: lower case, without '.' or '+',
      trimmed. */
  function CleanTitle(str: string): (r: string)
    ensures r != [] ==> !IsJsSpace(r[0]) && !IsJsSpace(r[|r| - 1])
  {
    Trim(RemoveMarks(ToLower(str)))
  }

  /** The inner `for … in rank.titles` loop: whether some title occurs in `s`. */
  function MatchesTitle(s: string, titles: seq<string>): (r: bool)
    ensures r <==> exists k :: 0 <= k < |titles| && Includes(s, titles[k])
  {
    if titles == [] then false
    else if Includes(s, titles[0]) then true
    else
      var r := MatchesTitle(s, titles[1..]);
      assert r <==> exists k :: 1 <= k < |titles| && Includes(s, titles[k]) by {
        assert forall k :: 1 <= k < |titles| ==> titles[k] == titles[1..][k - 1];
        if r {
          var k :| 0 <= k < |titles[1..]| && Includes(s, titles[1..][k]);
          assert Includes(s, titles[k + 1]);
        }
      }
      r
  }

  /** `RANK_MAPPINGS.find(…)`: the first mapping with a matching title. */
  function FindRank(s: string, mappings: seq<RankMapping>): (r: Option<RankMapping>)
    ensures r.None? <==> forall k :: 0 <= k < |mappings| ==> !MatchesTitle(s, mappings[k].titles)
    ensures r.Some? ==> exists k :: 0 <= k < |mappings| && mappings[k] == r.value
                          && MatchesTitle(s, mappings[k].titles)
                          && forall j :: 0 <= j < k ==> !MatchesTitle(s, mappings[j].titles)
  {
    if mappings == [] then None
    else if MatchesTitle(s, mappings[0].titles) then Some(mappings[0])
    else
      var r := FindRank(s, mappings[1..]);
      assert forall k :: 1 <= k < |mappings| ==> mappings[k] == mappings[1..][k - 1];
      if r.Some? then
        var k :| 0 <= k < |mappings[1..]| && mappings[1..][k] == r.value
                 && MatchesTitle(s, mappings[1..][k].titles)
                 && forall j :: 0 <= j < k ==> !MatchesTitle(s, mappings[1..][j].titles);
        assert mappings[k + 1] == r.value;
        r
      else
        r
  }

  /** Every string contains the empty string. */
  lemma IncludesEmpty(s: string)
    ensures Includes(s, "")
  {
    assert OccursAt(s, "", 0);
  }

  /** `getRank`: never undefined, because the firefighter entry's empty title
      matches whatever is left after cleaning. */
  function GetRank(str: string): (r: Option<RankMapping>)
    ensures r.Some? && r.value in RankMappings
  {
    var s := CleanTitle(str);
    IncludesEmpty(s);
    assert MatchesTitle(s, RankMappings[3].titles) by { assert RankMappings[3].titles[2] == ""; }
    FindRank(s, RankMappings)
  }

  /** In a list without repeated entries, the search returns entry `i`
      exactly when `i` matches and no entry before it does. */
  lemma {:induction false} FindRankIsFirstMatch(s: string, mappings: seq<RankMapping>, i: nat)
    requires i < |mappings|
    requires forall a, b :: 0 <= a < b < |mappings| ==> mappings[a] != mappings[b]
    ensures FindRank(s, mappings) == Some(mappings[i]) <==>
            MatchesTitle(s, mappings[i].titles)
            && forall j :: 0 <= j < i ==> !MatchesTitle(s, mappings[j].titles)
  {
    if i > 0 && !MatchesTitle(s, mappings[0].titles) {
      FindRankIsFirstMatch(s, mappings[1..], i - 1);
      assert mappings[1..][i - 1] == mappings[i];
      assert forall j :: 1 <= j < i ==> mappings[1..][j - 1] == mappings[j];
    }
  }

  /** Mapping `i` is chosen exactly when one of its titles occurs in the
      cleaned string and none of an earlier mapping's titles do. */
  lemma GetRankIsFirstMatch(str: string, i: nat)
    requires i < |RankMappings|
    ensures GetRank(str) == Some(RankMappings[i]) <==>
            MatchesTitle(CleanTitle(str), RankMappings[i].titles)
            && forall j :: 0 <= j < i ==> !MatchesTitle(CleanTitle(str), RankMappings[j].titles)
  {
    var s := CleanTitle(str);
    assert forall a, b :: 0 <= a < b < |RankMappings| ==> RankMappings[a].icon != RankMappings[b].icon;
    FindRankIsFirstMatch(s, RankMappings, i);
  }

  /** A title that mentions a medic is a medic, whatever else it says. */
  lemma MedicWins(str: string)
    requires Includes(CleanTitle(str), "medic")
    ensures GetRank(str) == Some(Medic)
  {
    GetRankIsFirstMatch(str, 0);
  }

  /** A title already in lower case, without marks and without surrounding
      white space is compared as it is. */
  lemma CleanTitleUnchanged(str: string)
    requires forall i :: 0 <= i < |str| ==> !IsUpper(str[i])
    requires '.' !in str && '+' !in str
    requires str != [] ==> !IsJsSpace(str[0]) && !IsJsSpace(str[|str| - 1])
    ensures CleanTitle(str) == str
  {
    assert ToLower(str) == str;
    TrimUnchanged(str);
  }

  /** "medic captain" is a medic: the medic entry is searched before the
      officer entry. */
  lemma MedicCaptain(str: string)
    requires str == "medic captain"
    ensures GetRank(str) == Some(Medic)
  {
    CleanTitleUnchanged(str);
    assert OccursAt("medic captain", "medic", 0);
    MedicWins(str);
  }

  /** A title that matches none of the first three entries is a firefighter. */
  lemma DefaultIsFirefighter(str: string)
    requires forall j :: 0 <= j < 3 ==> !MatchesTitle(CleanTitle(str), RankMappings[j].titles)
    ensures GetRank(str) == Some(Firefighter)
  {
    IncludesEmpty(CleanTitle(str));
    assert Firefighter.titles[2] == "";
    GetRankIsFirstMatch(str, 3);
  }

  /** The reference days of `shiftMap`, in search order: 3, 5 and 7 January
      2017 for "a", the 6th, 8th and 10th for "b", the 9th, 11th and 13th for
      "c". No array plugin is loaded, so `dayjs([2017, 1, d])` hands the
      array to `new Date`, which reads its text "2017,1,d" with a month
      counted from 1. */
  const ShiftStarts: seq<(char, int)> := [
    ('a', 17169), ('a', 17171), ('a', 17173),
    ('b', 17172), ('b', 17174), ('b', 17176),
    ('c', 17175), ('c', 17177), ('c', 17179)
  ]

  const CycleLength := 9

  /** `date.diff(shiftStart, "days") % 9 === 0`. */
  predicate SameCycleDay(day: int, start: int)
  {
    JsRem(day - start, CycleLength) == 0
  }

  /** The nested search loop: the letter of the first reference day whose
      distance to `day` is a multiple of 9, by the sign-keeping `%`. */
  function FindShift(day: int, starts: seq<(char, int)>): (r: Option<char>)
    ensures r.None? <==> forall k :: 0 <= k < |starts| ==> !SameCycleDay(day, starts[k].1)
    ensures r.Some? ==> exists k :: 0 <= k < |starts| && starts[k].0 == r.value
                          && SameCycleDay(day, starts[k].1)
                          && forall j :: 0 <= j < k ==> !SameCycleDay(day, starts[j].1)
  {
    if starts == [] then None
    else if SameCycleDay(day, starts[0].1) then Some(starts[0].0)
    else
      var r := FindShift(day, starts[1..]);
      assert forall k :: 1 <= k < |starts| ==> starts[k] == starts[1..][k - 1];
      if r.Some? then
        var k :| 0 <= k < |starts[1..]| && starts[1..][k].0 == r.value
                 && SameCycleDay(day, starts[1..][k].1)
                 && forall j :: 0 <= j < k ==> !SameCycleDay(day, starts[1..][j].1);
        assert starts[k + 1].0 == r.value;
        r
      else
        r
  }


  /** The platoon working on each day of the 9-day cycle, by the day's
      remainder: "a" works cycle days 6, 8, 1, "b" 0, 2, 4, "c" 3, 5, 7. */
  function PlatoonOf(residue: int): (c: char)
    requires 0 <= residue < 9
    ensures c in {'a', 'b', 'c'}
  {
    if residue in {6, 8, 1} then 'a'
    else if residue in {0, 2, 4} then 'b'
    else 'c'
  }

  /** The sign of the difference does not matter for divisibility. */
  lemma SameCycleDayByResidue(day: int, start: int)
    ensures SameCycleDay(day, start) <==> start % 9 == day % 9
  {
  }

  /** The nine reference days fall on nine different days of the cycle, so
      every day of the cycle has exactly one of them. */
  lemma ReferenceDaysCoverCycle()
    ensures forall a, b :: 0 <= a < b < |ShiftStarts| ==> ShiftStarts[a].1 % 9 != ShiftStarts[b].1 % 9
    ensures forall m :: 0 <= m < 9 ==> ShiftStarts[StartOfResidue(m)].1 % 9 == m
    ensures forall k :: 0 <= k < |ShiftStarts| ==> PlatoonOf(ShiftStarts[k].1 % 9) == ShiftStarts[k].0
  {
    assert ShiftStarts[0].1 % 9 == 6 && ShiftStarts[1].1 % 9 == 8 && ShiftStarts[2].1 % 9 == 1;
    assert ShiftStarts[3].1 % 9 == 0 && ShiftStarts[4].1 % 9 == 2 && ShiftStarts[5].1 % 9 == 4;
    assert ShiftStarts[6].1 % 9 == 3 && ShiftStarts[7].1 % 9 == 5 && ShiftStarts[8].1 % 9 == 7;
  }

  /** Where in `ShiftStarts` the reference day with remainder `m` is. */
  function StartOfResidue(m: int): (k: nat)
    requires 0 <= m < 9
    ensures k < |ShiftStarts|
  {
    [3, 2, 4, 6, 5, 7, 0, 8, 1][m]
  }

  /** The search over the reference days always finds a letter, and it is
      the platoon of the day's place in the 9-day cycle. */
  lemma FindShiftIsPlatoon(day: int)
    ensures FindShift(day, ShiftStarts) == Some(PlatoonOf(day % 9))
  {
    var m := day % 9;
    forall k | 0 <= k < |ShiftStarts|
      ensures SameCycleDay(day, ShiftStarts[k].1) <==> ShiftStarts[k].1 % 9 == m
    {
      SameCycleDayByResidue(day, ShiftStarts[k].1);
    }
    ReferenceDaysCoverCycle();
    var k0 := StartOfResidue(m);
    assert SameCycleDay(day, ShiftStarts[k0].1);
    var r := FindShift(day, ShiftStarts);
    var k :| 0 <= k < |ShiftStarts| && ShiftStarts[k].0 == r.value
             && SameCycleDay(day, ShiftStarts[k].1);
    assert ShiftStarts[k].1 % 9 == m;
  }

  /** `getShift` on a day number: never undefined, and always the platoon of
      the day's place in the 9-day cycle. */
  function GetShift(day: int): (r: Option<char>)
    ensures r == Some(PlatoonOf(day % 9))
  {
    FindShiftIsPlatoon(day);
    FindShift(day, ShiftStarts)
  }

  /** Days nine apart are worked by the same platoon. */
  lemma ShiftPeriod(day: int)
    ensures GetShift(day + 9) == GetShift(day)
  {
    assert (day + 9) % 9 == day % 9;
  }

  /** Each reference day is worked by its own platoon: 3 January 2017 is an
      "a" day, the 6th a "b" day and the 9th a "c" day. */
  lemma ReferenceDayLetters()
    ensures GetShift(17169) == Some('a')
    ensures GetShift(17172) == Some('b')
    ensures GetShift(17175) == Some('c')
  {
  }
}
