/** Routing post-processing: the straight-line fallback, reading GeoJSON positions
    (longitude first, section 3.1.1 of RFC 7946) back into [lat, lng] pairs,
    metre-to-kilometre conversion, and the choice of alternatives. The requests
    themselves are not modelled; their decoded responses are inputs. */
module Routing {
  import opened Types
  import opened Aqi

  /** A distance in kilometres: never negative. */
  type Km = x: real | 0.0 <= x

  /** `RouteResult`: the path as [lat, lng] pairs, its length in km and its
      duration in seconds. */
  datatype RouteResult = RouteResult(coordinates: seq<Pos>, distance: real, duration: real)

  /** A GeoJSON position, `[longitude, latitude]`. */
  datatype GeoPosition = GeoPosition(lng: real, lat: real)

  /** A route of a routing response: its geometry's positions when present, its
      length in metres and its duration in seconds when present. */
  datatype ResponseRoute = ResponseRoute(geometry: Option<seq<GeoPosition>>, distance: Option<real>, duration: Option<real>)

  /** `straightLine`: the segment from origin to destination, `greatCircleKm` the
      haversine length on a 6371 km sphere, driven at 30 km/h. */
  function StraightLine(origin: Location, destination: Location, greatCircleKm: (Pos, Pos) -> Km): RouteResult {
    var a := Pos(origin.lat, origin.lng);
    var b := Pos(destination.lat, destination.lng);
    var distance := greatCircleKm(a, b);
    RouteResult([a, b], distance, distance / 30.0 * 3600.0)
  }

  /** The fallback path is exactly [origin, destination], a route storing it reads
      back as the same two points, and its duration is 120 s per km: never negative,
      and zero exactly for a zero distance. */
  lemma StraightLineShape(origin: Location, destination: Location, greatCircleKm: (Pos, Pos) -> Km, route: Route)
    ensures var r := StraightLine(origin, destination, greatCircleKm);
      && r.coordinates == [Pos(origin.lat, origin.lng), Pos(destination.lat, destination.lng)]
      && RouteCoordinates(route.(polyline := PolylineOf(r.coordinates))) == r.coordinates
      && r.duration == 120.0 * r.distance && r.duration >= 0.0
      && (r.duration == 0.0 <==> r.distance == 0.0)
  {
    RouteCoordinatesRoundTrip(route, StraightLine(origin, destination, greatCircleKm).coordinates);
  }

  /** `.map((c) => [c[1], c[0]])`: GeoJSON positions as [lat, lng] pairs. */
  function ToLatLng(cs: seq<GeoPosition>): (ps: seq<Pos>)
    ensures |ps| == |cs|
  {
    seq(|cs|, i requires 0 <= i < |cs| => Pos(cs[i].lat, cs[i].lng))
  }

  /** The request side: [lat, lng] pairs sent longitude first. */
  function ToGeo(ps: seq<Pos>): (cs: seq<GeoPosition>)
    ensures |cs| == |ps|
  {
    seq(|ps|, i requires 0 <= i < |ps| => GeoPosition(ps[i].lng, ps[i].lat))
  }

  /** The swap loses nothing: it keeps count and order and is undone by the
      request-side conversion, both ways round. */
  lemma SwapRoundTrip(cs: seq<GeoPosition>, ps: seq<Pos>)
    ensures ToGeo(ToLatLng(cs)) == cs
    ensures ToLatLng(ToGeo(ps)) == ps
    ensures forall i :: 0 <= i < |cs| ==> ToLatLng(cs)[i].lat == cs[i].lat && ToLatLng(cs)[i].lng == cs[i].lng
  {
  }

  /** The two endpoints a request sends, longitude first. */
  function RequestPositions(origin: Location, destination: Location): seq<GeoPosition> {
    [GeoPosition(origin.lng, origin.lat), GeoPosition(destination.lng, destination.lat)]
  }

  /** Read back, the request endpoints are the straight-line fallback's path. */
  lemma RequestMatchesStraightLine(origin: Location, destination: Location, greatCircleKm: (Pos, Pos) -> Km)
    ensures ToLatLng(RequestPositions(origin, destination)) == StraightLine(origin, destination, greatCircleKm).coordinates
  {
  }

  /** `(route.summary?.distance ?? 0) / 1000`. */
  function OrsKm(metres: Option<real>): real {
    Override(metres, 0.0) / 1000.0
  }

  /** `route.distance ? route.distance / 1000 : 0`: a missing or zero length is 0. */
  function OsrmKm(metres: Option<real>): real {
    if metres.Some? && metres.value != 0.0 then metres.value / 1000.0 else 0.0
  }

  /** Both conversions divide a length by 1000 and give 0 for a missing or zero
      one, so they agree; a conversion back multiplies by 1000. */
  lemma KmConversions(metres: Option<real>)
    ensures OrsKm(metres) == OsrmKm(metres)
    ensures metres.None? || metres == Some(0.0) ==> OsrmKm(metres) == 0.0
    ensures metres.Some? ==> OsrmKm(metres) * 1000.0 == metres.value
  {
  }

  /** The provider `computeRoute` uses: `options?.provider ?? (ORS_KEY ? 'ors' : 'osrm')`. */
  datatype Provider = Osrm | Ors | Straight

  function ChosenProvider(requested: Option<Provider>, hasOrsKey: bool): Provider {
    Override(requested, if hasOrsKey then Ors else Osrm)
  }

  /** The first route of a successful response, read as a result; none when the
      response failed or that route has no geometry (the thrown error that falls
      back to the straight line). */
  function FirstRoute(response: Option<seq<ResponseRoute>>, km: Option<real> -> real): Option<RouteResult> {
    if response.None? || response.value == [] || response.value[0].geometry.None? then None
    else
      var r := response.value[0];
      Some(RouteResult(ToLatLng(r.geometry.value), km(r.distance), Override(r.duration, 0.0)))
  }

  /** `computeRoute`. `orsResponse` and `osrmResponse` stand for the decoded routes
      of the two services, `None` when the request failed. */
  function ComputeRoute(origin: Location, destination: Location, requested: Option<Provider>, hasOrsKey: bool,
                        orsResponse: Option<seq<ResponseRoute>>, osrmResponse: Option<seq<ResponseRoute>>,
                        greatCircleKm: (Pos, Pos) -> Km): RouteResult
  {
    var provider := ChosenProvider(requested, hasOrsKey);
    if provider == Straight then StraightLine(origin, destination, greatCircleKm)
    else
      var parsed := if provider == Ors && hasOrsKey then FirstRoute(orsResponse, OrsKm) else FirstRoute(osrmResponse, OsrmKm);
      match parsed
      case Some(r) => r
      case None => StraightLine(origin, destination, greatCircleKm)
  }

  /** The straight line is used when asked for, and whenever the service answering
      fails; otherwise the path is the service's geometry, swapped to [lat, lng].
      Asking for ORS without a key goes to OSRM. */
  lemma ComputeRouteCases(origin: Location, destination: Location, requested: Option<Provider>, hasOrsKey: bool,
                          orsResponse: Option<seq<ResponseRoute>>, osrmResponse: Option<seq<ResponseRoute>>,
                          greatCircleKm: (Pos, Pos) -> Km)
    ensures var r := ComputeRoute(origin, destination, requested, hasOrsKey, orsResponse, osrmResponse, greatCircleKm);
      var provider := ChosenProvider(requested, hasOrsKey);
      var answering := if provider == Ors && hasOrsKey then orsResponse else osrmResponse;
      && (provider == Straight ==> r == StraightLine(origin, destination, greatCircleKm))
      && (provider != Straight && answering.None? ==> r == StraightLine(origin, destination, greatCircleKm))
      && (provider != Straight && answering.Some? && answering.value != [] && answering.value[0].geometry.Some? ==>
            r.coordinates == ToLatLng(answering.value[0].geometry.value))
    ensures !hasOrsKey && requested != Some(Straight) ==>
      ComputeRoute(origin, destination, requested, hasOrsKey, orsResponse, osrmResponse, greatCircleKm)
        == ComputeRoute(origin, destination, Some(Osrm), hasOrsKey, orsResponse, osrmResponse, greatCircleKm)
  {
  }

  /** One alternative: `r.geometry?.coordinates ?? []` swapped, the converted length
      and the duration. */
  function Alternative(r: ResponseRoute): RouteResult {
    RouteResult(ToLatLng(Override(r.geometry, [])), OsrmKm(r.distance), Override(r.duration, 0.0))
  }

  /** `computeAlternativeRoutes`. `response` stands for the decoded OSRM routes
      (`json.routes ?? []`), `None` when the request failed; `primary` for what
      `computeRoute` returns then. */
  function AlternativeRoutes(response: Option<seq<ResponseRoute>>, primary: RouteResult): (alts: seq<RouteResult>)
    ensures response.None? ==> alts == [primary]
    ensures response.Some? ==> |alts| == if |response.value| < 3 then |response.value| else 3
    ensures response.Some? ==> forall i :: 0 <= i < |alts| ==> alts[i] == Alternative(response.value[i])
  {
    match response
    case None => [primary]
    case Some(routes) =>
      var kept := if |routes| <= 3 then routes else routes[..3];
      seq(|kept|, i requires 0 <= i < |kept| => Alternative(kept[i]))
  }

  /** At most three alternatives come back; a failure gives exactly the primary
      route; an alternative without geometry has no coordinates. */
  lemma AlternativeRoutesShape(response: Option<seq<ResponseRoute>>, primary: RouteResult)
    ensures 1 <= |AlternativeRoutes(response, primary)| <= 3 || (response.Some? && response.value == [])
    ensures |AlternativeRoutes(response, primary)| <= 3
    ensures response.Some? ==> forall i :: 0 <= i < |AlternativeRoutes(response, primary)| ==>
      (response.value[i].geometry.None? ==> AlternativeRoutes(response, primary)[i].coordinates == [])
  {
  }
}
