/** The map's computations (src/components/MapView.tsx): reading a route's
    coordinates, sampling label positions along a polyline by accumulated
    distance, inverse-distance-weighted AQI interpolation, the zoom tables and
    the assembly of the AQI labels drawn along each route. Great-circle
    distance is a parameter `dist` that is never negative. */
module MapView {
  import opened Numbers
  import opened Lists
  import opened Types
  import opened Aqi

  // ---------------------------------------------------------------------------
  // Route coordinates
  // ---------------------------------------------------------------------------

  /** `route.polyline.map(...)`: each entry that is a pair is read as such; any
      other entry stands for the origin. */
  function EntriesToCoords(entries: seq<PolyEntry>, origin: Pos): (cs: seq<Pos>)
    ensures |cs| == |entries|
    decreases |entries|
  {
    if entries == [] then []
    else
      [match entries[0] case Pair(p) => p case NotPair => origin] + EntriesToCoords(entries[1..], origin)
  }

  /** `getCoords`: a non-empty coordinate array is mapped entry by entry, anything
      else becomes [origin, destination]. */
  function GetCoords(route: Route): (cs: seq<Pos>)
    ensures |cs| >= 1
  {
    var origin := Pos(route.origin.lat, route.origin.lng);
    if route.polyline.Points? && |route.polyline.entries| > 0 then
      EntriesToCoords(route.polyline.entries, origin)
    else
      [origin, Pos(route.destination.lat, route.destination.lng)]
  }

  lemma {:induction false} EntriesToCoordsAt(entries: seq<PolyEntry>, origin: Pos, i: nat)
    requires i < |entries|
    ensures EntriesToCoords(entries, origin)[i]
      == (match entries[i] case Pair(p) => p case NotPair => origin)
    decreases i
  {
    if i > 0 {
      EntriesToCoordsAt(entries[1..], origin, i - 1);
    }
  }

  /** The map's `getCoords` and the AQI code's `getRouteCoordinates` read every
      route the same way. */
  lemma GetCoordsAgrees(route: Route)
    ensures GetCoords(route) == RouteCoordinates(route)
  {
    if route.polyline.Points? && |route.polyline.entries| > 0 {
      var origin := Pos(route.origin.lat, route.origin.lng);
      forall i | 0 <= i < |route.polyline.entries|
        ensures GetCoords(route)[i] == RouteCoordinates(route)[i]
      {
        EntriesToCoordsAt(route.polyline.entries, origin, i);
      }
    }
  }

  // ---------------------------------------------------------------------------
  // Sampling along a polyline by accumulated distance
  // ---------------------------------------------------------------------------

  /** The distance travelled along the polyline from vertex `a` to vertex `b`. */
  function PathLength(coords: seq<Pos>, dist: (Pos, Pos) -> Meters, a: nat, b: nat): (len: real)
    requires a <= b < |coords|
    ensures len >= 0.0
    decreases b - a
  {
    if b == a then 0.0 else PathLength(coords, dist, a, b - 1) + dist(coords[b - 1], coords[b])
  }

  /** The vertex indices the loop of `samplePointsAlongPolyline` emits, from
      vertex `i` on, with `acc` metres already accumulated: a vertex is emitted
      once the accumulated distance reaches the interval, which resets it to 0. */
  function Emitted(coords: seq<Pos>, interval: real, dist: (Pos, Pos) -> Meters, i: nat, acc: real): (e: seq<nat>)
    requires 1 <= i <= |coords|
    ensures forall k :: 0 <= k < |e| ==> i <= e[k] < |coords|
    ensures StrictlyIncreasing(e)
    decreases |coords| - i
  {
    if i == |coords| then []
    else
      var a := acc + dist(coords[i - 1], coords[i]);
      if a >= interval then [i] + Emitted(coords, interval, dist, i + 1, 0.0)
      else Emitted(coords, interval, dist, i + 1, a)
  }

  /** The indices of the returned vertices: the first vertex, the emitted ones, and
      the last vertex unless the final emitted vertex already equals it. */
  function SampleIndices(coords: seq<Pos>, interval: real, dist: (Pos, Pos) -> Meters): (idx: seq<nat>)
    requires |coords| >= 2
    ensures |idx| >= 1 && idx[0] == 0 && StrictlyIncreasing(idx)
    ensures forall k :: 0 <= k < |idx| ==> idx[k] < |coords|
    ensures coords[idx[|idx| - 1]] == coords[|coords| - 1]
  {
    var e := Emitted(coords, interval, dist, 1, 0.0);
    var inLoop := [0] + e;
    var j := inLoop[|inLoop| - 1];
    IncreasingCons(0, e);
    if coords[j] != coords[|coords| - 1] then
      IncreasingSnoc(inLoop, |coords| - 1);
      inLoop + [|coords| - 1]
    else inLoop
  }

  /** `samplePointsAlongPolyline`, as a function of its inputs. */
  function Samples(coords: seq<Pos>, interval: real, dist: (Pos, Pos) -> Meters): seq<Pos> {
    if |coords| < 2 then coords else Pick(coords, SampleIndices(coords, interval, dist))
  }

  /** With two or more vertices the samples start at the first vertex, end at a
      vertex equal to the last one, and are a subsequence of the input, so never
      longer than it. Shorter polylines come back unchanged. */
  lemma SamplesShape(coords: seq<Pos>, interval: real, dist: (Pos, Pos) -> Meters)
    ensures |coords| < 2 ==> Samples(coords, interval, dist) == coords
    ensures |coords| >= 2 ==> (|Samples(coords, interval, dist)| >= 1
      && Samples(coords, interval, dist)[0] == coords[0]
      && Samples(coords, interval, dist)[|Samples(coords, interval, dist)| - 1] == coords[|coords| - 1])
    ensures IsSubsequence(Samples(coords, interval, dist), coords)
    ensures |Samples(coords, interval, dist)| <= |coords|
  {
    var r := Samples(coords, interval, dist);
    if |coords| < 2 {
      SubsequenceOfSelf(coords);
    } else {
      PickIsSubsequence(coords, SampleIndices(coords, interval, dist));
    }
    SubsequenceNoLonger(r, coords);
  }

  /** Whether the path from vertex `a` to vertex `b` is at least `interval` long. */
  predicate Reaches(coords: seq<Pos>, dist: (Pos, Pos) -> Meters, interval: real, a: nat, b: nat)
    requires a <= b < |coords|
  {
    PathLength(coords, dist, a, b) >= interval
  }

  /** Vertex positions `e`, in increasing order, spaced as the sampling loop
      spaces them: consecutive ones at least `interval` apart along the path, no
      vertex strictly between two of them that far from the earlier one, and no
      vertex after the last one that far from it. */
  predicate Spaced(coords: seq<Pos>, dist: (Pos, Pos) -> Meters, interval: real, e: seq<nat>)
    requires e != [] && StrictlyIncreasing(e) && forall k :: 0 <= k < |e| ==> e[k] < |coords|
  {
    (forall k :: 0 <= k < |e| - 1 ==> Reaches(coords, dist, interval, e[k], e[k + 1]))
    && (forall k, m :: 0 <= k < |e| - 1 && e[k] < m < e[k + 1] ==> !Reaches(coords, dist, interval, e[k], m))
    && (forall m :: Last(e) < m < |coords| ==> !Reaches(coords, dist, interval, Last(e), m))
  }

  /** A vertex far enough before a spaced sequence, with nothing in between far
      enough from it, extends the sequence. */
  lemma SpacedCons(coords: seq<Pos>, dist: (Pos, Pos) -> Meters, interval: real, p: nat, tail: seq<nat>)
    requires tail != [] && StrictlyIncreasing(tail) && forall k :: 0 <= k < |tail| ==> tail[k] < |coords|
    requires p < tail[0] && Spaced(coords, dist, interval, tail)
    requires Reaches(coords, dist, interval, p, tail[0])
    requires forall m :: p < m < tail[0] ==> !Reaches(coords, dist, interval, p, m)
    ensures Spaced(coords, dist, interval, [p] + tail)
  {
    var e := [p] + tail;
    forall k | 0 <= k < |e| - 1 ensures Reaches(coords, dist, interval, e[k], e[k + 1]) {
      if k > 0 { assert e[k] == tail[k - 1] && e[k + 1] == tail[k]; }
    }
    forall k, m | 0 <= k < |e| - 1 && e[k] < m < e[k + 1]
      ensures !Reaches(coords, dist, interval, e[k], m)
    {
      if k > 0 { assert e[k] == tail[k - 1] && e[k + 1] == tail[k]; }
    }
    assert Last(e) == Last(tail);
  }

  /** Starting from the last emitted vertex `p`, with the distance from `p` to
      vertex `i - 1` accumulated and no vertex before `i` far enough from `p`, the
      loop emits vertices spaced as `Spaced` says. */
  lemma {:induction false} EmittedSpacing(coords: seq<Pos>, interval: real, dist: (Pos, Pos) -> Meters, p: nat, i: nat)
    requires p < i <= |coords|
    requires forall m :: p < m < i ==> !Reaches(coords, dist, interval, p, m)
    ensures Spaced(coords, dist, interval, [p] + Emitted(coords, interval, dist, i, PathLength(coords, dist, p, i - 1)))
    decreases |coords| - i
  {
    var acc := PathLength(coords, dist, p, i - 1);
    var e := [p] + Emitted(coords, interval, dist, i, acc);
    if i < |coords| {
      var a := acc + dist(coords[i - 1], coords[i]);
      assert a == PathLength(coords, dist, p, i);
      if a >= interval {
        assert PathLength(coords, dist, i, i) == 0.0;
        var tail := [i] + Emitted(coords, interval, dist, i + 1, 0.0);
        EmittedSpacing(coords, interval, dist, i, i + 1);
        assert e == [p] + tail;
        SpacedCons(coords, dist, interval, p, tail);
      } else {
        EmittedSpacing(coords, interval, dist, p, i + 1);
      }
    }
  }

  /** With a non-positive interval every vertex is emitted. */
  lemma {:induction false} EmittedAll(coords: seq<Pos>, interval: real, dist: (Pos, Pos) -> Meters, i: nat, acc: real)
    requires 1 <= i <= |coords| && interval <= 0.0 && acc >= 0.0
    ensures Emitted(coords, interval, dist, i, acc) == seq(|coords| - i, k requires 0 <= k < |coords| - i => (i + k) as nat)
    decreases |coords| - i
  {
    if i < |coords| {
      EmittedAll(coords, interval, dist, i + 1, 0.0);
    }
  }

  /** With a non-positive interval the polyline comes back unchanged. */
  lemma SamplesAllWhenIntervalNonPositive(coords: seq<Pos>, interval: real, dist: (Pos, Pos) -> Meters)
    requires interval <= 0.0
    ensures Samples(coords, interval, dist) == coords
  {
    if |coords| >= 2 {
      EmittedAll(coords, interval, dist, 1, 0.0);
      var idx := SampleIndices(coords, interval, dist);
      var inLoop := [0] + Emitted(coords, interval, dist, 1, 0.0);
      assert inLoop[|inLoop| - 1] == |coords| - 1;
      assert idx == inLoop;
      assert forall k :: 0 <= k < |idx| ==> idx[k] == k;
    }
  }

  /** `samplePointsAlongPolyline`. */
  method SamplePointsAlongPolyline(coords: seq<Pos>, intervalM: real, dist: (Pos, Pos) -> Meters)
    returns (points: seq<Pos>)
    ensures points == Samples(coords, intervalM, dist)
  {
    if |coords| < 2 {
      return coords;
    }
    points := [coords[0]];
    var accumulated := 0.0;
    ghost var inLoop: seq<nat> := [0];
    var i := 1;
    while i < |coords|
      invariant 1 <= i <= |coords|
      invariant inLoop + Emitted(coords, intervalM, dist, i, accumulated) == [0] + Emitted(coords, intervalM, dist, 1, 0.0)
      invariant forall k :: 0 <= k < |inLoop| ==> inLoop[k] < |coords|
      invariant points == Pick(coords, inLoop)
    {
      ghost var rest := Emitted(coords, intervalM, dist, i, accumulated);
      var d := dist(coords[i - 1], coords[i]);
      accumulated := accumulated + d;
      if accumulated >= intervalM {
        assert rest == [i] + Emitted(coords, intervalM, dist, i + 1, 0.0);
        assert inLoop + rest == (inLoop + [i]) + Emitted(coords, intervalM, dist, i + 1, 0.0);
        PickAppend(coords, inLoop, [i]);
        points := points + [coords[i]];
        inLoop := inLoop + [i];
        accumulated := 0.0;
      } else {
        assert rest == Emitted(coords, intervalM, dist, i + 1, accumulated);
      }
      i := i + 1;
    }
    assert Emitted(coords, intervalM, dist, i, accumulated) == [];
    assert inLoop == [0] + Emitted(coords, intervalM, dist, 1, 0.0);
    SamplesAfterLoop(coords, intervalM, dist, inLoop);
    var last := coords[|coords| - 1];
    if |points| > 0 && points[|points| - 1] != last {
      points := points + [last];
    }
  }

  /** What the loop has picked, completed by the final check on the last vertex,
      is `Samples`. */
  lemma SamplesAfterLoop(coords: seq<Pos>, interval: real, dist: (Pos, Pos) -> Meters, inLoop: seq<nat>)
    requires |coords| >= 2
    requires inLoop == [0] + Emitted(coords, interval, dist, 1, 0.0)
    ensures var picked := Pick(coords, inLoop);
      Samples(coords, interval, dist)
        == if picked[|picked| - 1] != coords[|coords| - 1] then picked + [coords[|coords| - 1]] else picked
  {
    PickAppend(coords, inLoop, [|coords| - 1]);
  }

  // ---------------------------------------------------------------------------
  // Inverse-distance-weighted interpolation
  // ---------------------------------------------------------------------------

  /** `st.coordinates?.latitude ?? 0`, `... ?? 0`: a station without coordinates
      is placed at (0, 0). */
  function StationPos(s: Station): Pos {
    match s.coordinates
    case Some(p) => p
    case None => Pos(0.0, 0.0)
  }

  /** `1 / (dist + 100)`: always positive, and larger for nearer stations. */
  function Weight(d: Meters): (w: real)
    ensures w > 0.0
  {
    1.0 / (d + 100.0)
  }

  lemma WeightDecreasing(d1: Meters, d2: Meters)
    requires d1 <= d2
    ensures Weight(d2) <= Weight(d1)
  {
    var w1, w2 := Weight(d1), Weight(d2);
    assert w1 * (d1 + 100.0) == 1.0;
    assert w2 * (d2 + 100.0) == 1.0;
    assert w2 * (d1 + 100.0) <= w2 * (d2 + 100.0);
  }

  function StationWeight(p: Pos, s: Station, dist: (Pos, Pos) -> Meters): (w: real)
    ensures w > 0.0
  {
    Weight(dist(p, StationPos(s)))
  }

  /** The weight of each station as seen from `p`. */
  function WeightsFrom(p: Pos, dist: (Pos, Pos) -> Meters): Station -> real {
    s => StationWeight(p, s, dist)
  }

  /** The sum of the weights of `ss`. */
  function TotalWeight(ss: seq<Station>, weight: Station -> real): real
    decreases |ss|
  {
    if ss == [] then 0.0
    else TotalWeight(ss[..|ss| - 1], weight) + weight(ss[|ss| - 1])
  }

  /** With positive weights, the total is positive exactly when there are stations. */
  lemma {:induction false} TotalWeightPositive(ss: seq<Station>, weight: Station -> real)
    requires forall s :: weight(s) > 0.0
    ensures ss == [] ==> TotalWeight(ss, weight) == 0.0
    ensures ss != [] ==> TotalWeight(ss, weight) > 0.0
    decreases |ss|
  {
    if ss != [] {
      TotalWeightPositive(ss[..|ss| - 1], weight);
    }
  }

  /** The sum of `aqi * weight` over `ss`. */
  function WeightedSum(ss: seq<Station>, weight: Station -> real): real
    decreases |ss|
  {
    if ss == [] then 0.0
    else WeightedSum(ss[..|ss| - 1], weight) + ss[|ss| - 1].aqi as real * weight(ss[|ss| - 1])
  }

  /** `interpolateAQI`, as a function of its inputs. */
  function Interpolation(p: Pos, ss: seq<Station>, dist: (Pos, Pos) -> Meters): (r: Option<int>)
    ensures r.None? <==> ss == []
  {
    if ss == [] then None
    else
      var weight := WeightsFrom(p, dist);
      var t := TotalWeight(ss, weight);
      TotalWeightPositive(ss, weight);
      if t > 0.0 then Some(Round(WeightedSum(ss, weight) / t)) else None
  }

  lemma Distribute(a: real, x: real, y: real)
    ensures a * (x + y) == a * x + a * y
  {
  }

  lemma MulMonotone(a: real, b: real, w: real)
    requires a <= b && w >= 0.0
    ensures a * w <= b * w
  {
    assert (b - a) * w >= 0.0;
  }

  /** Bounds on every AQI bound the weighted sum by the same multiples of the total weight. */
  lemma {:induction false} WeightedSumBounds(ss: seq<Station>, weight: Station -> real, lo: real, hi: real)
    requires forall s :: weight(s) > 0.0
    requires forall i :: 0 <= i < |ss| ==> lo <= ss[i].aqi as real <= hi
    ensures lo * TotalWeight(ss, weight) <= WeightedSum(ss, weight) <= hi * TotalWeight(ss, weight)
    decreases |ss|
  {
    if ss == [] {
      assert lo * 0.0 == 0.0 && hi * 0.0 == 0.0;
    } else {
      var init, s := ss[..|ss| - 1], ss[|ss| - 1];
      assert forall i :: 0 <= i < |init| ==> init[i] == ss[i];
      WeightedSumBounds(init, weight, lo, hi);
      BoundStep(lo, hi, TotalWeight(init, weight), WeightedSum(init, weight), weight(s), s.aqi as real,
                TotalWeight(ss, weight), WeightedSum(ss, weight));
    }
  }

  /** Adding one weighted value inside the bounds keeps the weighted sum inside them:
      `t` is the total weight `t0 + w` and `x` the weighted sum `x0 + a * w`. */
  lemma BoundStep(lo: real, hi: real, t0: real, x0: real, w: real, a: real, t: real, x: real)
    requires lo * t0 <= x0 <= hi * t0 && lo <= a <= hi && w > 0.0
    requires t == t0 + w && x == x0 + a * w
    ensures lo * t <= x <= hi * t
  {
    MulMonotone(lo, a, w);
    MulMonotone(a, hi, w);
    Distribute(lo, t0, w);
    Distribute(hi, t0, w);
  }

  /** With stations, the interpolation lies between any bounds on the stations'
      AQIs, so between the smallest and the largest of them. */
  lemma InterpolationBetween(p: Pos, ss: seq<Station>, dist: (Pos, Pos) -> Meters, lo: int, hi: int)
    requires forall i :: 0 <= i < |ss| ==> lo <= ss[i].aqi <= hi
    requires ss != []
    ensures lo <= Interpolation(p, ss, dist).value <= hi
  {
    var weight := WeightsFrom(p, dist);
    var t, ws := TotalWeight(ss, weight), WeightedSum(ss, weight);
    TotalWeightPositive(ss, weight);
    WeightedSumBounds(ss, weight, lo as real, hi as real);
    QuotientBetween(ws, t, lo as real, hi as real);
    RoundBetween(ws / t, lo, hi);
  }

  /** A single station gives its own AQI, wherever it is. */
  lemma InterpolationSingle(p: Pos, s: Station, dist: (Pos, Pos) -> Meters)
    ensures Interpolation(p, [s], dist) == Some(s.aqi)
  {
    var weight := WeightsFrom(p, dist);
    var w := weight(s);
    assert [s][..0] == [];
    assert TotalWeight([s], weight) == w;
    assert WeightedSum([s], weight) == s.aqi as real * w;
    assert (s.aqi as real * w) / w == s.aqi as real;
    RoundOfInt(s.aqi);
  }

  /** The stations with every missing position made explicit as (0, 0). */
  function Located(ss: seq<Station>): (r: seq<Station>)
    ensures |r| == |ss|
    ensures forall i :: 0 <= i < |ss| ==> r[i] == ss[i].(coordinates := Some(StationPos(ss[i])))
  {
    seq(|ss|, i requires 0 <= i < |ss| => ss[i].(coordinates := Some(StationPos(ss[i]))))
  }

  /** A station without coordinates weighs in exactly as one placed at (0, 0). */
  lemma {:induction false} MissingCoordinatesAtOrigin(p: Pos, ss: seq<Station>, dist: (Pos, Pos) -> Meters)
    ensures TotalWeight(Located(ss), WeightsFrom(p, dist)) == TotalWeight(ss, WeightsFrom(p, dist))
    ensures WeightedSum(Located(ss), WeightsFrom(p, dist)) == WeightedSum(ss, WeightsFrom(p, dist))
    ensures Interpolation(p, Located(ss), dist) == Interpolation(p, ss, dist)
    decreases |ss|
  {
    if ss != [] {
      var init := ss[..|ss| - 1];
      assert Located(ss)[..|ss| - 1] == Located(init);
      MissingCoordinatesAtOrigin(p, init, dist);
    }
  }

  /** `interpolateAQI(lat, lng, stations)`. */
  method InterpolateAqi(lat: real, lng: real, stations: seq<Station>, dist: (Pos, Pos) -> Meters)
    returns (r: Option<int>)
    ensures r == Interpolation(Pos(lat, lng), stations, dist)
  {
    if |stations| == 0 {
      return None;
    }
    var p := Pos(lat, lng);
    var weightedSum := 0.0;
    var totalWeight := 0.0;
    var i := 0;
    while i < |stations|
      invariant 0 <= i <= |stations|
      invariant weightedSum == WeightedSum(stations[..i], WeightsFrom(p, dist))
      invariant totalWeight == TotalWeight(stations[..i], WeightsFrom(p, dist))
    {
      var st := stations[i];
      var sLat := if st.coordinates.Some? then st.coordinates.value.lat else 0.0;
      var sLng := if st.coordinates.Some? then st.coordinates.value.lng else 0.0;
      var d := dist(p, Pos(sLat, sLng));
      var w := 1.0 / (d + 100.0);
      assert w == WeightsFrom(p, dist)(st);
      assert stations[..i + 1][..i] == stations[..i];
      weightedSum := weightedSum + st.aqi as real * w;
      totalWeight := totalWeight + w;
      i := i + 1;
    }
    assert stations[..i] == stations;
    r := if totalWeight > 0.0 then Some(Round(weightedSum / totalWeight)) else None;
  }

  // ---------------------------------------------------------------------------
  // Zoom tables
  // ---------------------------------------------------------------------------

  /** The label spacing, in metres, for an unselected route. */
  function BaseInterval(zoom: real): real {
    if zoom >= 16.0 then 200.0
    else if zoom >= 15.0 then 400.0
    else if zoom >= 14.0 then 700.0
    else if zoom >= 13.0 then 1200.0
    else if zoom >= 12.0 then 2500.0
    else if zoom >= 11.0 then 5000.0
    else if zoom >= 10.0 then 10000.0
    else if zoom >= 9.0 then 20000.0
    else 40000.0
  }

  /** `getRouteIntervalForZoom`: the step table scaled by 0.6 for the selected route. */
  function RouteIntervalForZoom(zoom: real, isSelected: bool): (m: real)
    ensures m > 0.0
  {
    BaseInterval(zoom) * (if isSelected then 0.6 else 1.0)
  }

  /** Zooming in never makes labels sparser, the selected route is 0.6 times as
      sparse as the others, and the extremes are 200 m (120 m selected) at zoom 16
      and 40 km below zoom 9. */
  lemma RouteIntervalShape(z1: real, z2: real, isSelected: bool)
    requires z1 <= z2
    ensures RouteIntervalForZoom(z2, isSelected) <= RouteIntervalForZoom(z1, isSelected)
    ensures RouteIntervalForZoom(z1, true) == 0.6 * RouteIntervalForZoom(z1, false)
    ensures RouteIntervalForZoom(z1, true) < RouteIntervalForZoom(z1, false)
    ensures z1 >= 16.0 ==> RouteIntervalForZoom(z1, false) == 200.0 && RouteIntervalForZoom(z1, true) == 120.0
    ensures z2 < 9.0 ==> RouteIntervalForZoom(z2, false) == 40000.0
  {
  }

  datatype LabelSize = LabelSize(fontSize: int, height: int, minWidth: int)

  /** `getLabelSizeForZoom`. */
  function LabelSizeForZoom(zoom: real, isSelected: bool): LabelSize {
    if zoom >= 15.0 then
      LabelSize(if isSelected then 12 else 10, if isSelected then 24 else 20, if isSelected then 34 else 28)
    else if zoom >= 13.0 then
      LabelSize(if isSelected then 11 else 9, if isSelected then 22 else 18, if isSelected then 30 else 24)
    else if zoom >= 11.0 then
      LabelSize(if isSelected then 10 else 8, if isSelected then 20 else 16, if isSelected then 26 else 22)
    else
      LabelSize(if isSelected then 9 else 7, if isSelected then 18 else 14, if isSelected then 22 else 18)
  }

  /** Pills grow with zoom, are always twice as tall as their font size, and a
      selected route's pill is two points larger in font and larger in every
      dimension. */
  lemma LabelSizeShape(z1: real, z2: real, isSelected: bool)
    requires z1 <= z2
    ensures var a, b := LabelSizeForZoom(z1, isSelected), LabelSizeForZoom(z2, isSelected);
      a.fontSize <= b.fontSize && a.height <= b.height && a.minWidth <= b.minWidth
    ensures LabelSizeForZoom(z1, isSelected).height == 2 * LabelSizeForZoom(z1, isSelected).fontSize
    ensures var s, u := LabelSizeForZoom(z1, true), LabelSizeForZoom(z1, false);
      s.fontSize == u.fontSize + 2 && s.height > u.height && s.minWidth > u.minWidth
    ensures 7 <= LabelSizeForZoom(z1, isSelected).fontSize <= 12
  {
  }

  datatype GridConfig = GridConfig(gridSize: nat, spreadDeg: real)

  /** The map-wide grid's size and spread for a zoom level. */
  function GridConfigForZoom(zoom: real): GridConfig {
    if zoom >= 14.0 then GridConfig(8, 0.05)
    else if zoom >= 13.0 then GridConfig(8, 0.08)
    else if zoom >= 12.0 then GridConfig(8, 0.14)
    else if zoom >= 11.0 then GridConfig(8, 0.25)
    else if zoom >= 10.0 then GridConfig(8, 0.45)
    else if zoom >= 9.0 then GridConfig(7, 0.8)
    else GridConfig(6, 1.5)
  }

  /** The grid is always 6 to 8 points a side (never the size 1 the grid generator
      cannot handle), and zooming in never shrinks it nor widens its spread. */
  lemma GridConfigShape(z1: real, z2: real)
    requires z1 <= z2
    ensures 6 <= GridConfigForZoom(z1).gridSize <= 8
    ensures GridConfigForZoom(z1).gridSize <= GridConfigForZoom(z2).gridSize
    ensures 0.0 < GridConfigForZoom(z2).spreadDeg <= GridConfigForZoom(z1).spreadDeg
  {
  }

  /** The grid drawn at a zoom level: `generateAQIGrid` with that level's configuration. */
  method ZoomGrid(centerLat: real, centerLng: real, zoom: real, rand: int -> Unit)
    returns (points: seq<Station>)
    ensures var cfg := GridConfigForZoom(zoom);
      points == GridRows(centerLat, centerLng, cfg.gridSize, cfg.spreadDeg, rand, cfg.gridSize)
    ensures 36 <= |points| <= 64
  {
    var cfg := GridConfigForZoom(zoom);
    GridConfigShape(zoom, zoom);
    points := GenerateAqiGrid(centerLat, centerLng, cfg.gridSize, cfg.spreadDeg, rand);
  }

  // ---------------------------------------------------------------------------
  // Route labels
  // ---------------------------------------------------------------------------

  /** The key `${route.id}-${zoom}-${i}`, kept as its three parts. */
  datatype LabelKey = LabelKey(routeId: string, zoom: real, index: nat)

  datatype Label = Label(key: LabelKey, pos: Pos, aqi: int, isSelected: bool)

  /** `route.id === selectedRouteId`. */
  predicate IsSelected(route: Route, selectedRouteId: Option<string>) {
    selectedRouteId == Some(route.id)
  }

  /** The sample points of a route at a zoom level. */
  function RouteSamples(route: Route, selectedRouteId: Option<string>, zoom: real,
                        dist: (Pos, Pos) -> Meters): seq<Pos>
  {
    Samples(GetCoords(route), RouteIntervalForZoom(zoom, IsSelected(route, selectedRouteId)), dist)
  }

  /** The labels of one route's points: one per point whose interpolated AQI exists. */
  function PointLabels(routeId: string, zoom: real, pts: seq<Pos>, stations: seq<Station>,
                       dist: (Pos, Pos) -> Meters, isSelected: bool): seq<Label>
    decreases |pts|
  {
    if pts == [] then []
    else
      var i := |pts| - 1;
      var prev := PointLabels(routeId, zoom, pts[..i], stations, dist, isSelected);
      match Interpolation(pts[i], stations, dist)
      case None => prev
      case Some(a) => prev + [Label(LabelKey(routeId, zoom, i), pts[i], a, isSelected)]
  }

  /** The labels of the first routes, route after route. */
  function RoutesLabels(routes: seq<Route>, stations: seq<Station>, selectedRouteId: Option<string>,
                        zoom: real, dist: (Pos, Pos) -> Meters): seq<Label>
    decreases |routes|
  {
    if routes == [] then []
    else
      var route := routes[|routes| - 1];
      RoutesLabels(routes[..|routes| - 1], stations, selectedRouteId, zoom, dist)
        + PointLabels(route.id, zoom, RouteSamples(route, selectedRouteId, zoom, dist),
                      stations, dist, IsSelected(route, selectedRouteId))
  }

  /** The labels drawn along the routes: none without stations. */
  function Labels(routes: seq<Route>, stations: seq<Station>, selectedRouteId: Option<string>,
                  zoom: real, dist: (Pos, Pos) -> Meters): seq<Label>
  {
    if stations == [] then [] else RoutesLabels(routes, stations, selectedRouteId, zoom, dist)
  }

  /** With stations every sample point gets exactly one label, keyed by its index,
      placed at the point and showing the interpolated AQI there. */
  lemma {:induction false} PointLabelsOnePerPoint(routeId: string, zoom: real, pts: seq<Pos>, stations: seq<Station>,
                                                  dist: (Pos, Pos) -> Meters, isSelected: bool)
    requires stations != []
    ensures |PointLabels(routeId, zoom, pts, stations, dist, isSelected)| == |pts|
    ensures forall i :: 0 <= i < |pts| ==>
      PointLabels(routeId, zoom, pts, stations, dist, isSelected)[i]
        == Label(LabelKey(routeId, zoom, i), pts[i], Interpolation(pts[i], stations, dist).value, isSelected)
    decreases |pts|
  {
    if pts != [] {
      var i := |pts| - 1;
      PointLabelsOnePerPoint(routeId, zoom, pts[..i], stations, dist, isSelected);
    }
  }

  /** No stations, no labels; with stations, every route contributes one label
      per sample point. */
  lemma {:induction false} LabelsCount(routes: seq<Route>, stations: seq<Station>, selectedRouteId: Option<string>,
                                       zoom: real, dist: (Pos, Pos) -> Meters)
    ensures stations == [] ==> Labels(routes, stations, selectedRouteId, zoom, dist) == []
    ensures stations != [] && routes != [] ==>
      |Labels(routes, stations, selectedRouteId, zoom, dist)|
        == |Labels(routes[..|routes| - 1], stations, selectedRouteId, zoom, dist)|
          + |RouteSamples(routes[|routes| - 1], selectedRouteId, zoom, dist)|
  {
    if stations != [] && routes != [] {
      var route := routes[|routes| - 1];
      PointLabelsOnePerPoint(route.id, zoom, RouteSamples(route, selectedRouteId, zoom, dist),
                             stations, dist, IsSelected(route, selectedRouteId));
    }
  }

  /** One more route appends that route's labels. */
  lemma RoutesLabelsNext(routes: seq<Route>, r: nat, stations: seq<Station>, selectedRouteId: Option<string>,
                         zoom: real, dist: (Pos, Pos) -> Meters)
    requires r < |routes|
    ensures RoutesLabels(routes[..r + 1], stations, selectedRouteId, zoom, dist)
      == RoutesLabels(routes[..r], stations, selectedRouteId, zoom, dist)
        + PointLabels(routes[r].id, zoom, RouteSamples(routes[r], selectedRouteId, zoom, dist),
                      stations, dist, IsSelected(routes[r], selectedRouteId))
  {
    assert routes[..r + 1][..r] == routes[..r];
  }

  /** The inner `points.forEach` of the label assembly: one label per point whose
      interpolated AQI exists. */
  method RoutePointLabels(routeId: string, zoom: real, points: seq<Pos>, stations: seq<Station>,
                          dist: (Pos, Pos) -> Meters, isSelected: bool)
    returns (out: seq<Label>)
    ensures out == PointLabels(routeId, zoom, points, stations, dist, isSelected)
  {
    out := [];
    var i := 0;
    while i < |points|
      invariant 0 <= i <= |points|
      invariant out == PointLabels(routeId, zoom, points[..i], stations, dist, isSelected)
    {
      var pt := points[i];
      var aqi := InterpolateAqi(pt.lat, pt.lng, stations, dist);
      assert points[..i + 1][..i] == points[..i];
      if aqi.Some? {
        out := out + [Label(LabelKey(routeId, zoom, i), pt, aqi.value, isSelected)];
      }
      i := i + 1;
    }
    assert points[..i] == points;
  }

  /** The label assembly of `ZoomAdaptiveRouteLabels`. */
  method ZoomAdaptiveLabels(routes: seq<Route>, stations: seq<Station>, selectedRouteId: Option<string>,
                            zoom: real, dist: (Pos, Pos) -> Meters)
    returns (out: seq<Label>)
    ensures out == Labels(routes, stations, selectedRouteId, zoom, dist)
  {
    if |stations| == 0 {
      return [];
    }
    out := [];
    var r := 0;
    while r < |routes|
      invariant 0 <= r <= |routes|
      invariant out == RoutesLabels(routes[..r], stations, selectedRouteId, zoom, dist)
    {
      var route := routes[r];
      var coords := GetCoords(route);
      var isSelected := selectedRouteId == Some(route.id);
      var interval := RouteIntervalForZoom(zoom, isSelected);
      var points := SamplePointsAlongPolyline(coords, interval, dist);
      var labels := RoutePointLabels(route.id, zoom, points, stations, dist, isSelected);
      RoutesLabelsNext(routes, r, stations, selectedRouteId, zoom, dist);
      out := out + labels;
      r := r + 1;
    }
    assert routes[..r] == routes;
  }
}
