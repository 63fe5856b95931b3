/** A route's card in the list: its border takes the colour of the route's last
    AQI, a small badge shows that AQI, and pills name the scheduled weekdays. */
module RouteCard {
  import opened Lists
  import opened Types
  import opened Constants
  import opened Aqi

  /** `toUpperCase` on one character of a day name. */
  function Upper(c: char): char {
    if 'a' <= c <= 'z' then (c as int - 32) as char else c
  }

  /** `s.day.slice(0, 3).charAt(0).toUpperCase() + s.day.slice(1, 3)`. */
  function Abbrev(d: Day): (a: string)
    ensures |a| == 3
  {
    var n := DayName(d);
    [Upper(n[0])] + n[1..3]
  }

  /** 'monday' becomes 'Mon', and so on for every day. */
  lemma AbbrevValues()
    ensures Abbrev(Monday) == "Mon" && Abbrev(Tuesday) == "Tue" && Abbrev(Wednesday) == "Wed"
    ensures Abbrev(Thursday) == "Thu" && Abbrev(Friday) == "Fri"
    ensures Abbrev(Saturday) == "Sat" && Abbrev(Sunday) == "Sun"
  {
    AbbrevOfName(Monday, 'm', 'o', 'n');
    AbbrevOfName(Tuesday, 't', 'u', 'e');
    AbbrevOfName(Wednesday, 'w', 'e', 'd');
    AbbrevOfName(Thursday, 't', 'h', 'u');
    AbbrevOfName(Friday, 'f', 'r', 'i');
    AbbrevOfName(Saturday, 's', 'a', 't');
    AbbrevOfName(Sunday, 's', 'u', 'n');
  }

  /** A day name starting with `c0 c1 c2` is abbreviated to those three letters,
      the first upper-cased. */
  lemma AbbrevOfName(d: Day, c0: char, c1: char, c2: char)
    requires DayName(d)[0] == c0 && DayName(d)[1] == c1 && DayName(d)[2] == c2
    ensures Abbrev(d) == [Upper(c0), c1, c2]
  {
  }

  /** Different days get different abbreviations, so deduplicating abbreviations
      deduplicates days. */
  lemma AbbrevInjective(d1: Day, d2: Day)
    requires Abbrev(d1) == Abbrev(d2)
    ensures d1 == d2
  {
    AbbrevValues();
  }

  function Identity(s: string): string {
    s
  }

  /** The abbreviation of every schedule slot, in slot order. */
  function Abbrevs(schedule: seq<ScheduleSlot>): (r: seq<string>)
    ensures |r| == |schedule| && forall i :: 0 <= i < |schedule| ==> r[i] == Abbrev(schedule[i].day)
  {
    seq(|schedule|, i requires 0 <= i < |schedule| => Abbrev(schedule[i].day))
  }

  /** `scheduleDays`: the abbreviations, each kept only where `indexOf` finds it
      (its first occurrence). */
  function ScheduleDays(schedule: seq<ScheduleSlot>): seq<string> {
    FirstOccurrencesFrom(Abbrevs(schedule), Identity, 0)
  }

  /** The pills are the seen-set deduplication of the abbreviations: no abbreviation
      twice, in order of first appearance, never more pills than slots. */
  lemma ScheduleDaysDistinct(schedule: seq<ScheduleSlot>)
    ensures ScheduleDays(schedule) == DedupBy(Abbrevs(schedule), Identity, {})
    ensures forall i, j :: 0 <= i < j < |ScheduleDays(schedule)| ==> ScheduleDays(schedule)[i] != ScheduleDays(schedule)[j]
    ensures IsSubsequence(ScheduleDays(schedule), Abbrevs(schedule))
    ensures |ScheduleDays(schedule)| <= |schedule|
  {
    var a := Abbrevs(schedule);
    DedupByFirstOccurrences(a, Identity);
    DedupByDistinct(a, Identity, {});
    DedupByIsSubsequence(a, Identity, {});
  }

  /** Every scheduled day has its pill, and an empty schedule has none. */
  lemma ScheduleDaysCover(schedule: seq<ScheduleSlot>)
    ensures forall x :: x in ScheduleDays(schedule) <==> x in Abbrevs(schedule)
    ensures ScheduleDays(schedule) == [] <==> schedule == []
  {
    var a := Abbrevs(schedule);
    var r := DedupBy(a, Identity, {});
    DedupByFirstOccurrences(a, Identity);
    DedupByKeys(a, Identity, {});
    assert KeysOf(r, Identity) == KeysOf(a, Identity);
    forall x | x in a ensures x in r {
      var i :| 0 <= i < |a| && a[i] == x;
      assert Identity(a[i]) in KeysOf(a, Identity);
      var j :| 0 <= j < |r| && Identity(r[j]) == x;
    }
    if schedule != [] {
      DedupByNonEmpty(a, Identity);
    }
  }

  /** The card's border colour: the tier colour of the last AQI, else the theme border. */
  function BorderColor(lastAQI: Option<int>): string {
    match lastAQI
    case Some(a) => GetAqiColor(a)
    case None => "var(--border)"
  }

  /** The AQI the card's badge shows (size 'sm'), when there is one. */
  function Badge(route: Route): Option<int> {
    route.lastAQI
  }

  /** A route with a last AQI gets a badge for it and a hex tier colour on its border;
      one without gets neither, only the theme border. */
  lemma BorderFollowsBadge(route: Route)
    ensures Badge(route).Some? <==> IsHexColor(BorderColor(route.lastAQI))
    ensures Badge(route).Some? ==> BorderColor(route.lastAQI) == AqiBreakpoints[TierOf(Badge(route).value)].color
    ensures Badge(route).None? ==> BorderColor(route.lastAQI) == "var(--border)"
  {
    if route.lastAQI.Some? {
      ColorAndLabelAgree(route.lastAQI.value);
    }
  }
}
