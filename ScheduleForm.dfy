/** The schedule form: the stops of a day (a place, the weekdays it is visited and
    a time window) are collected one by one and then chained into routes, one from
    each stop to the next. */
module ScheduleForm {
  import opened Lists
  import opened Types

  /** The weekday buttons, Monday first. */
  const Days: seq<Day> := [Monday, Tuesday, Wednesday, Thursday, Friday, Saturday, Sunday]

  /** There is one button per weekday. */
  lemma DaysListsEachDayOnce()
    ensures forall d: Day :: d in Days
    ensures forall i, j :: 0 <= i < j < |Days| ==> Days[i] != Days[j]
  {
    forall d: Day ensures d in Days {
      match d
      case Monday => assert Days[0] == d;
      case Tuesday => assert Days[1] == d;
      case Wednesday => assert Days[2] == d;
      case Thursday => assert Days[3] == d;
      case Friday => assert Days[4] == d;
      case Saturday => assert Days[5] == d;
      case Sunday => assert Days[6] == d;
    }
  }

  /** `prev.includes(d) ? prev.filter((x) => x !== d) : [...prev, d]`. */
  function Toggled(days: seq<Day>, d: Day): (r: seq<Day>)
    ensures d in r <==> d !in days
    ensures forall x :: x != d ==> (x in r <==> x in days)
    ensures d !in days ==> |r| == |days| + 1 && r[..|days|] == days && r[|days|] == d
    ensures d in days ==> IsSubsequence(r, days)
    ensures d in days ==> forall x :: multiset(r)[x] == if x == d then 0 else multiset(days)[x]
  {
    FilterIsSubsequence(days, (x: Day) => x != d);
    FilterCounts(days, (x: Day) => x != d);
    if d in days then Filter(days, (x: Day) => x != d) else days + [d]
  }

  /** Toggling an unchosen day twice restores the list; toggling a chosen day twice
      removes all its copies and puts one back at the end. */
  lemma ToggleTwice(days: seq<Day>, d: Day)
    ensures d !in days ==> Toggled(Toggled(days, d), d) == days
    ensures d in days ==> Toggled(Toggled(days, d), d) == Filter(days, (x: Day) => x != d) + [d]
  {
    var keep := (x: Day) => x != d;
    if d !in days {
      FilterAppend(days, [d], keep);
      FilterKeepsAll(days, keep);
      assert Filter([d], keep) == [];
    }
  }

  /** `s.slice(0, n)`. */
  function Prefix(s: string, n: nat): (p: string)
    ensures |p| <= n && p <= s
    ensures |s| <= n ==> p == s
  {
    if |s| <= n then s else s[..n]
  }

  /** `from.routeName || `${from.name} → ${to.name}``: an empty name counts as none. */
  function LegName(from: ScheduleItem, to: ScheduleItem): string {
    if from.routeName.Some? && from.routeName.value != "" then from.routeName.value
    else from.name + " → " + to.name
  }

  /** The route pushed for the leg from stop `i` to stop `i + 1`, given the
      coordinates the router returned and the fresh id it was given. */
  function Leg(items: seq<ScheduleItem>, i: nat, coords: seq<Pos>, id: string): Route
    requires i + 1 < |items|
  {
    var from := items[i];
    var to := items[i + 1];
    Route(id, LegName(from, to), from.location, to.location, PolylineOf(coords),
          seq(|from.days|, k requires 0 <= k < |from.days| => ScheduleSlot(from.days[k], from.startTime, from.endTime)),
          None, Some(i == 0))
  }

  /** The routes `createRoutes` reports. `computeRoute(from, to)` stands for the
      coordinates of the routed path and `newId(i)` for the id drawn for leg `i`. */
  function ChainRoutes(items: seq<ScheduleItem>, computeRoute: (Location, Location) -> seq<Pos>,
                       newId: nat -> string): (rs: seq<Route>)
    ensures |items| < 2 ==> rs == []
    ensures |items| >= 2 ==> |rs| == |items| - 1
  {
    if |items| < 2 then []
    else
      seq(|items| - 1, i requires 0 <= i < |items| - 1 =>
            Leg(items, i, computeRoute(items[i].location, items[i + 1].location), newId(i)))
  }

  /** Leg `i` runs from stop `i` to stop `i + 1` along the routed path; only the
      first is preferred; it is scheduled on its origin stop's days within that
      stop's time window, and has no AQI yet. */
  lemma ChainRoutesLeg(items: seq<ScheduleItem>, computeRoute: (Location, Location) -> seq<Pos>,
                       newId: nat -> string, i: nat)
    requires i + 1 < |items|
    ensures var r := ChainRoutes(items, computeRoute, newId)[i];
      && r.origin == items[i].location && r.destination == items[i + 1].location
      && r.name == LegName(items[i], items[i + 1]) && r.id == newId(i)
      && r.polyline == PolylineOf(computeRoute(items[i].location, items[i + 1].location))
      && r.preferred == Some(i == 0) && r.lastAQI == None
      && |r.schedule| == |items[i].days|
      && (forall k :: 0 <= k < |r.schedule| ==>
            r.schedule[k] == ScheduleSlot(items[i].days[k], items[i].startTime, items[i].endTime))
  {
    var r := ChainRoutes(items, computeRoute, newId)[i];
    assert r == Leg(items, i, computeRoute(items[i].location, items[i + 1].location), newId(i));
  }

  /** Consecutive legs meet: each one ends where the next begins. */
  lemma ChainRoutesConnect(items: seq<ScheduleItem>, computeRoute: (Location, Location) -> seq<Pos>,
                           newId: nat -> string)
    ensures var rs := ChainRoutes(items, computeRoute, newId);
      forall i :: 0 <= i < |rs| - 1 ==> rs[i].destination == rs[i + 1].origin
  {
    var rs := ChainRoutes(items, computeRoute, newId);
    forall i | 0 <= i < |rs| - 1
      ensures rs[i].destination == rs[i + 1].origin
    {
      ChainRoutesLeg(items, computeRoute, newId, i);
      ChainRoutesLeg(items, computeRoute, newId, i + 1);
    }
  }

  /** A leg's name is the origin stop's own route name when it has a non-empty one,
      and otherwise joins the two stop names with an arrow. */
  lemma LegNameCases(from: ScheduleItem, to: ScheduleItem)
    ensures from.routeName.Some? && from.routeName.value != "" ==> LegName(from, to) == from.routeName.value
    ensures from.routeName == None || from.routeName == Some("") ==>
      LegName(from, to) == from.name + " → " + to.name && |LegName(from, to)| == |from.name| + |to.name| + 3
  {
  }

  /** The form's state. */
  class Form {
    var items: seq<ScheduleItem>
    var name: string
    var addressQuery: string
    var selectedLocation: Option<Location>
    var days: seq<Day>
    var startTime: string
    var endTime: string
    var routeName: string

    constructor ()
      ensures items == [] && name == "" && addressQuery == "" && selectedLocation == None && days == []
      ensures startTime == "08:00" && endTime == "09:00" && routeName == ""
    {
      items := [];
      name := "";
      addressQuery := "";
      selectedLocation := None;
      days := [];
      startTime := "08:00";
      endTime := "09:00";
      routeName := "";
    }

    /** `selectResult`: the picked search result becomes the selected place, its
        label the first 50 characters of its display name and the query the first 80. */
    method SelectResult(lat: real, lng: real, displayName: string)
      modifies this
      ensures selectedLocation == Some(Location(lat, lng, Prefix(displayName, 50)))
      ensures addressQuery == Prefix(displayName, 80)
      ensures items == old(items) && name == old(name) && days == old(days) && routeName == old(routeName)
      ensures startTime == old(startTime) && endTime == old(endTime)
    {
      selectedLocation := Some(Location(lat, lng, Prefix(displayName, 50)));
      addressQuery := Prefix(displayName, 80);
    }

    /** `toggleDay`. */
    method ToggleDay(d: Day)
      modifies this
      ensures days == Toggled(old(days), d)
      ensures items == old(items) && name == old(name) && addressQuery == old(addressQuery)
      ensures selectedLocation == old(selectedLocation) && routeName == old(routeName)
      ensures startTime == old(startTime) && endTime == old(endTime)
    {
      days := Toggled(days, d);
    }

    /** `addItem`, with `newId` the id drawn for the new stop. Without a selected
        place or a chosen day nothing happens. Otherwise one stop is appended, an
        empty route name is stored as none, and the name, query, place, days and
        route name are cleared; the time window is kept. */
    method AddItem(newId: string)
      modifies this
      ensures old(selectedLocation).None? || old(days) == [] ==>
        items == old(items) && name == old(name) && addressQuery == old(addressQuery)
        && selectedLocation == old(selectedLocation) && days == old(days) && routeName == old(routeName)
      ensures old(selectedLocation).Some? && old(days) != [] ==>
        items == old(items) + [ScheduleItem(newId, old(name), old(selectedLocation).value, old(days),
                                            old(startTime), old(endTime),
                                            if old(routeName) == "" then None else Some(old(routeName)))]
        && name == "" && addressQuery == "" && selectedLocation == None && days == [] && routeName == ""
      ensures startTime == old(startTime) && endTime == old(endTime)
    {
      if selectedLocation.None? || |days| == 0 {
        return;
      }
      var item := ScheduleItem(newId, name, selectedLocation.value, days, startTime, endTime,
                               if routeName == "" then None else Some(routeName));
      items := items + [item];
      name := "";
      addressQuery := "";
      selectedLocation := None;
      days := [];
      routeName := "";
    }

    /** `removeItem`: every stop with the id goes, the rest keep their order. */
    method RemoveItem(id: string)
      modifies this
      ensures items == Filter(old(items), (i: ScheduleItem) => i.id != id)
      ensures name == old(name) && addressQuery == old(addressQuery) && selectedLocation == old(selectedLocation)
      ensures days == old(days) && routeName == old(routeName)
      ensures startTime == old(startTime) && endTime == old(endTime)
    {
      items := Filter(items, (i: ScheduleItem) => i.id != id);
    }

    /** `createRoutes`: the routes handed to `onRoutesCreated`. */
    method CreateRoutes(computeRoute: (Location, Location) -> seq<Pos>, newId: nat -> string)
      returns (routes: seq<Route>)
      ensures routes == ChainRoutes(items, computeRoute, newId)
    {
      if |items| < 2 {
        return [];
      }
      routes := [];
      var i := 0;
      while i < |items| - 1
        invariant 0 <= i <= |items| - 1
        invariant |routes| == i
        invariant forall k :: 0 <= k < i ==>
          routes[k] == Leg(items, k, computeRoute(items[k].location, items[k + 1].location), newId(k))
      {
        var from := items[i];
        var to := items[i + 1];
        var coords := computeRoute(from.location, to.location);
        var schedule := seq(|from.days|, k requires 0 <= k < |from.days| =>
          ScheduleSlot(from.days[k], from.startTime, from.endTime));
        var legName := if from.routeName.Some? && from.routeName.value != "" then from.routeName.value
                       else from.name + " → " + to.name;
        routes := routes + [Route(newId(i), legName, from.location, to.location, PolylineOf(coords),
                                  schedule, None, Some(i == 0))];
        i := i + 1;
      }
    }
  }
}
