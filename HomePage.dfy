/** The home page's own logic: appending the routes the schedule form created,
    suggesting the least polluted alternative to a route, and the header's average
    AQI over the loaded stations. */
module HomePage {
  import opened Numbers
  import opened Lists
  import opened Types
  import opened Aqi

  /** An alternative's coordinates with the AQI estimated along it: `{ coords, aqi }`. */
  datatype Scored = Scored(coords: seq<Pos>, aqi: int)

  /** The score of an alternative whose AQI cannot be estimated (`aqi ?? 999`). */
  const Unestimated: int := 999

  function Score(est: Option<int>): int {
    match est
    case Some(a) => a
    case None => Unestimated
  }

  /** The position `withAqi.reduce((a, b) => (a.aqi < b.aqi ? a : b))` ends on: the
      running choice survives the next element only when strictly better, so among
      equal minima the last one wins. */
  function BestIndex(ws: seq<Scored>): (b: nat)
    requires ws != []
    ensures b < |ws|
    ensures forall j :: 0 <= j < |ws| ==> ws[b].aqi <= ws[j].aqi
    ensures forall j :: b < j < |ws| ==> ws[b].aqi < ws[j].aqi
    decreases |ws|
  {
    if |ws| == 1 then 0
    else
      var p := BestIndex(ws[..|ws| - 1]);
      if ws[p].aqi < ws[|ws| - 1].aqi then p else |ws| - 1
  }

  /** The reduction's choice is THE last minimum: any position holding a minimal
      score with only strictly worse ones after it is the one chosen. */
  lemma BestIndexIsLastMinimum(ws: seq<Scored>, i: nat)
    requires i < |ws|
    requires forall j :: 0 <= j < |ws| ==> ws[i].aqi <= ws[j].aqi
    requires forall j :: i < j < |ws| ==> ws[i].aqi < ws[j].aqi
    ensures BestIndex(ws) == i
  {
  }

  /** Of two equally scored alternatives the earlier is never the one chosen. */
  lemma TiesGoToTheLater(ws: seq<Scored>, i: nat, j: nat)
    requires i < j < |ws| && ws[i].aqi == ws[j].aqi
    ensures BestIndex(ws) != i
  {
  }

  /** `routes.find((x) => x.id === selectedRouteId) ?? routes[0]`: the first route
      with the selected id, else the first route, and none without routes. */
  function BaseRoute(routes: seq<Route>, selectedRouteId: Option<string>): (r: Option<Route>)
    ensures r.None? <==> routes == []
    ensures (forall i :: 0 <= i < |routes| ==> selectedRouteId != Some(routes[i].id)) && routes != []
      ==> r == Some(routes[0])
    ensures (exists i :: 0 <= i < |routes| && selectedRouteId == Some(routes[i].id))
      ==> (exists k :: 0 <= k < |routes| && r == Some(routes[k]) && selectedRouteId == Some(routes[k].id)
             && forall j :: 0 <= j < k ==> selectedRouteId != Some(routes[j].id))
  {
    var k := FirstIndexWhere(routes, (x: Route) => selectedRouteId == Some(x.id));
    if k < |routes| then Some(routes[k])
    else if routes == [] then None
    else Some(routes[0])
  }

  /** `getAQIForRoute({ ...base, polyline: coords })`: the AQI estimated along an
      alternative, given the readings found near each checkpoint. */
  function AlternativeAqi(base: Route, coords: seq<Pos>, readingsNear: Pos -> seq<Station>): Option<int> {
    var fake := base.(polyline := PolylineOf(coords));
    RouteAqi(Gathered(Checkpoints(RouteCoordinates(fake), 5), readingsNear), fake.lastAQI)
  }

  /** The `withAqi` list: each alternative with its score, in order. */
  function ScoredAlternatives(base: Route, alts: seq<seq<Pos>>, readingsNear: Pos -> seq<Station>): (ws: seq<Scored>)
    ensures |ws| == |alts|
  {
    seq(|alts|, i requires 0 <= i < |alts| => Scored(alts[i], Score(AlternativeAqi(base, alts[i], readingsNear))))
  }

  /** What one pass of the loop below appends is the `i`th scored alternative. */
  lemma ScoredAt(base: Route, alts: seq<seq<Pos>>, readingsNear: Pos -> seq<Station>, i: nat, aqi: Option<int>)
    requires i < |alts|
    requires aqi == RouteAqi(Gathered(Checkpoints(RouteCoordinates(base.(polyline := PolylineOf(alts[i]))), 5),
                                      readingsNear), base.(polyline := PolylineOf(alts[i])).lastAQI)
    ensures Scored(alts[i], if aqi.Some? then aqi.value else Unestimated) == ScoredAlternatives(base, alts, readingsNear)[i]
  {
  }

  /** The loop of `suggestBestRoute` that estimates every alternative. */
  method ScoreAlternatives(base: Route, alts: seq<seq<Pos>>, readingsNear: Pos -> seq<Station>)
    returns (withAqi: seq<Scored>)
    ensures withAqi == ScoredAlternatives(base, alts, readingsNear)
  {
    withAqi := [];
    var i := 0;
    while i < |alts|
      invariant 0 <= i <= |alts|
      invariant |withAqi| == i
      invariant forall k :: 0 <= k < i ==> withAqi[k] == ScoredAlternatives(base, alts, readingsNear)[k]
    {
      var fakeRoute := base.(polyline := PolylineOf(alts[i]));
      var aqi := GetAqiForRoute(fakeRoute, readingsNear);
      var scored := Scored(alts[i], if aqi.Some? then aqi.value else Unestimated);
      ScoredAt(base, alts, readingsNear, i, aqi);
      withAqi := withAqi + [scored];
      i := i + 1;
    }
  }

  /** The suggested coordinates: the best scored alternative, or none when there are
      no alternatives (`reduce` on an empty list throws and the page stores null). */
  function Suggestion(base: Route, alts: seq<seq<Pos>>, readingsNear: Pos -> seq<Station>): Option<seq<Pos>> {
    var ws := ScoredAlternatives(base, alts, readingsNear);
    if ws == [] then None else Some(ws[BestIndex(ws)].coords)
  }

  /** The score of every alternative, in order. */
  function Scores(base: Route, alts: seq<seq<Pos>>, readingsNear: Pos -> seq<Station>): (xs: seq<int>)
    ensures |xs| == |alts|
  {
    seq(|alts|, i requires 0 <= i < |alts| => Score(AlternativeAqi(base, alts[i], readingsNear)))
  }

  /** Position `i` holds a smallest score and every later score is strictly larger. */
  predicate IsLastMinimum(xs: seq<int>, i: nat) {
    && i < |xs|
    && (forall j :: 0 <= j < |xs| ==> xs[i] <= xs[j])
    && (forall j :: i < j < |xs| ==> xs[i] < xs[j])
  }

  /** No alternatives, no suggestion. Otherwise the suggestion is an alternative
      whose score (999 when its AQI cannot be estimated) is no more than any other
      alternative's, and every alternative after it scores strictly more. */
  lemma SuggestionIsLeastPolluted(base: Route, alts: seq<seq<Pos>>, readingsNear: Pos -> seq<Station>)
    ensures Suggestion(base, alts, readingsNear).None? <==> alts == []
    ensures alts != [] ==>
      exists i :: 0 <= i < |alts| && Suggestion(base, alts, readingsNear) == Some(alts[i])
                  && IsLastMinimum(Scores(base, alts, readingsNear), i)
  {
    if alts != [] {
      var ws := ScoredAlternatives(base, alts, readingsNear);
      var xs := Scores(base, alts, readingsNear);
      var b := BestIndex(ws);
      assert forall j :: 0 <= j < |alts| ==> ws[j].aqi == xs[j];
      assert IsLastMinimum(xs, b);
      assert Suggestion(base, alts, readingsNear) == Some(alts[b]);
    }
  }

  /** `avgAQI`: the rounded mean station AQI, or null with no stations. */
  function AverageAqi(stations: seq<Station>): (r: Option<int>)
    ensures r.None? <==> stations == []
  {
    if |stations| > 0 then Some(RoundedMean(AqisOf(stations))) else None
  }

  /** The average lies between the smallest and the largest station AQI. */
  lemma AverageAqiBetween(stations: seq<Station>, lo: int, hi: int)
    requires stations != []
    requires forall i :: 0 <= i < |stations| ==> lo <= stations[i].aqi <= hi
    ensures lo <= AverageAqi(stations).value <= hi
  {
    RoundedMeanBetween(AqisOf(stations), lo, hi);
  }

  /** One station's average is its own AQI. */
  lemma AverageAqiSingle(s: Station)
    ensures AverageAqi([s]) == Some(s.aqi)
  {
    assert AqisOf([s]) == [s.aqi];
    RoundedMeanSingle(s.aqi);
  }

  /** The page state `suggestBestRoute` and `handleRoutesCreated` work on. */
  class Home {
    var routes: seq<Route>
    var selectedRouteId: Option<string>
    var bestRouteCoords: Option<seq<Pos>>
    var suggestLoading: bool
    var scheduleFormOpen: bool
    /** Whether the onboarding key has been stored. */
    var onboardingDone: bool

    constructor (routes0: seq<Route>, onboardingDone0: bool)
      ensures routes == routes0 && selectedRouteId == None && bestRouteCoords == None
      ensures !suggestLoading && !scheduleFormOpen && onboardingDone == onboardingDone0
    {
      routes := routes0;
      selectedRouteId := None;
      bestRouteCoords := None;
      suggestLoading := false;
      scheduleFormOpen := false;
      onboardingDone := onboardingDone0;
    }

    /** `handleRoutesCreated`: new routes are appended after the existing ones, an
        empty batch leaves the list alone; the form closes and onboarding is marked done. */
    method HandleRoutesCreated(newRoutes: seq<Route>)
      modifies this
      ensures routes == old(routes) + newRoutes
      ensures newRoutes == [] ==> routes == old(routes)
      ensures !scheduleFormOpen && onboardingDone
      ensures selectedRouteId == old(selectedRouteId) && bestRouteCoords == old(bestRouteCoords)
      ensures suggestLoading == old(suggestLoading)
    {
      if |newRoutes| > 0 {
        routes := routes + newRoutes;
      } else {
        assert routes + newRoutes == routes;
      }
      scheduleFormOpen := false;
      onboardingDone := true;
    }

    /** `suggestBestRoute`. `alternatives(origin, destination)` stands for the
        coordinates of `computeAlternativeRoutes`, `readingsNear` for the station
        readings `getAQIForRoute` finds near each checkpoint. Without routes nothing
        changes; otherwise the suggestion is stored and loading ends. */
    method SuggestBestRoute(alternatives: (Location, Location) -> seq<seq<Pos>>,
                            readingsNear: Pos -> seq<Station>)
      modifies this
      ensures var base := BaseRoute(old(routes), old(selectedRouteId));
        base.None? ==> bestRouteCoords == old(bestRouteCoords) && suggestLoading == old(suggestLoading)
      ensures var base := BaseRoute(old(routes), old(selectedRouteId));
        base.Some? ==> (!suggestLoading && bestRouteCoords
          == Suggestion(base.value, alternatives(base.value.origin, base.value.destination), readingsNear))
      ensures routes == old(routes) && selectedRouteId == old(selectedRouteId)
      ensures scheduleFormOpen == old(scheduleFormOpen) && onboardingDone == old(onboardingDone)
    {
      var base := BaseRoute(routes, selectedRouteId);
      if base.None? {
        return;
      }
      var r := base.value;
      suggestLoading := true;
      var alts := alternatives(r.origin, r.destination);
      var withAqi := ScoreAlternatives(r, alts, readingsNear);
      if |withAqi| == 0 {
        bestRouteCoords := None;
      } else {
        var best := withAqi[BestIndex(withAqi)];
        bestRouteCoords := Some(best.coords);
      }
      suggestLoading := false;
    }
  }
}
