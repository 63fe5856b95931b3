/** AQI arithmetic (src/lib/aqi.ts): PM2.5 to AQI by the breakpoint formula,
    severity tier lookup, the deterministic demo and grid generators, the
    checkpoints sampled along a route and the deduplicated route mean. */
module Aqi {
  import opened Numbers
  import opened Lists
  import opened Types
  import opened Constants

  /** A monitoring station with its resolved AQI (`StationWithAQI`). The
      coordinates are optional because the map code reads them with `?.`. */
  datatype Station = Station(id: int, name: string, coordinates: Option<Pos>, aqi: int)

  function StationId(s: Station): int {
    s.id
  }

  function AqiOf(s: Station): int {
    s.aqi
  }

  // ---------------------------------------------------------------------------
  // PM2.5 -> AQI
  // ---------------------------------------------------------------------------

  /** One row `[bpLo, bpHi, aqiLo, aqiHi]` of the PM2.5 breakpoint table. */
  datatype Band = Band(concLo: real, concHi: real, aqiLo: int, aqiHi: int)

  const Pm25Bands: seq<Band> := [
    Band(0.0, 12.0, 0, 50),
    Band(12.1, 35.4, 51, 100),
    Band(35.5, 55.4, 101, 150),
    Band(55.5, 150.4, 151, 200),
    Band(150.5, 250.4, 201, 300),
    Band(250.5, 500.4, 301, 500)
  ]

  /** `pm25 >= bpLo && pm25 <= bpHi`. */
  predicate InBand(b: Band, pm25: real) {
    b.concLo <= pm25 <= b.concHi
  }

  /** Equation 1 of the EPA technical assistance document: linear interpolation
      inside the band, then `Math.round`. */
  function BandAqi(b: Band, pm25: real): int
    requires b.concLo < b.concHi
  {
    Round(((b.aqiHi - b.aqiLo) as real / (b.concHi - b.concLo)) * (pm25 - b.concLo) + b.aqiLo as real)
  }

  /** The table's bands are well formed, ordered, and separated by gaps, and
      their AQI ranges are ordered and inside [0, 500]. */
  lemma BandsOrdered()
    ensures |Pm25Bands| == 6
    ensures forall i :: 0 <= i < 6 ==> Pm25Bands[i].concLo < Pm25Bands[i].concHi
    ensures forall i :: 0 <= i < 6 ==> 0 <= Pm25Bands[i].aqiLo <= Pm25Bands[i].aqiHi <= 500
    ensures forall i, j :: 0 <= i < j < 6 ==> Pm25Bands[i].concHi < Pm25Bands[j].concLo
    ensures forall i, j :: 0 <= i < j < 6 ==> Pm25Bands[i].aqiHi < Pm25Bands[j].aqiLo
  {
  }

  /** Inside a band the result lies in the band's AQI range. */
  lemma BandAqiWithin(b: Band, pm25: real)
    requires b.concLo < b.concHi && b.aqiLo <= b.aqiHi
    requires InBand(b, pm25)
    ensures b.aqiLo <= BandAqi(b, pm25) <= b.aqiHi
  {
    var slope := (b.aqiHi - b.aqiLo) as real / (b.concHi - b.concLo);
    var t := pm25 - b.concLo;
    assert slope >= 0.0;
    assert slope * (b.concHi - b.concLo) == (b.aqiHi - b.aqiLo) as real;
    assert slope * ((b.concHi - b.concLo) - t) >= 0.0;
    assert 0.0 <= slope * t <= (b.aqiHi - b.aqiLo) as real;
    RoundBetween(slope * t + b.aqiLo as real, b.aqiLo, b.aqiHi);
  }

  /** Inside a band the result is non-decreasing in the concentration. */
  lemma BandAqiMonotone(b: Band, x: real, y: real)
    requires b.concLo < b.concHi && b.aqiLo <= b.aqiHi
    requires x <= y
    ensures BandAqi(b, x) <= BandAqi(b, y)
  {
    var slope := (b.aqiHi - b.aqiLo) as real / (b.concHi - b.concLo);
    assert slope >= 0.0;
    assert slope * (y - x) >= 0.0;
    assert slope * (x - b.concLo) <= slope * (y - b.concLo);
    RoundMonotone(slope * (x - b.concLo) + b.aqiLo as real, slope * (y - b.concLo) + b.aqiLo as real);
  }

  function BandContaining(pm25: real): (i: nat)
    ensures i <= |Pm25Bands|
  {
    FirstIndexWhere(Pm25Bands, (b: Band) => InBand(b, pm25))
  }

  /** `pm25ToAQI`: the first band containing the concentration gives the AQI;
      above 500.4 the result saturates at 500, and anything else is 0. */
  function Pm25ToAqi(pm25: real): (r: int)
    ensures 0 <= r <= 500
  {
    var i := BandContaining(pm25);
    if i < |Pm25Bands| then
      BandsOrdered();
      BandAqiWithin(Pm25Bands[i], pm25);
      BandAqi(Pm25Bands[i], pm25)
    else if pm25 > 500.4 then 500
    else 0
  }

  /** Bands do not overlap, so a concentration inside band `i` is converted by band `i`. */
  lemma Pm25InBand(i: nat, pm25: real)
    requires i < |Pm25Bands| && InBand(Pm25Bands[i], pm25)
    ensures BandContaining(pm25) == i
    ensures Pm25ToAqi(pm25) == BandAqi(Pm25Bands[i], pm25)
  {
    BandsOrdered();
    var f := BandContaining(pm25);
    assert f <= i;
    assert InBand(Pm25Bands[f], pm25);
  }

  lemma BandAqiAtEnds(b: Band)
    requires b.concLo < b.concHi
    ensures BandAqi(b, b.concLo) == b.aqiLo && BandAqi(b, b.concHi) == b.aqiHi
  {
    var slope := (b.aqiHi - b.aqiLo) as real / (b.concHi - b.concLo);
    assert slope * (b.concHi - b.concLo) == (b.aqiHi - b.aqiLo) as real;
    RoundOfInt(b.aqiLo);
    RoundOfInt(b.aqiHi);
  }

  /** A band's low breakpoint maps to its low AQI and its high breakpoint to its high AQI. */
  lemma Pm25BandEndpoints(i: nat)
    requires i < |Pm25Bands|
    ensures Pm25ToAqi(Pm25Bands[i].concLo) == Pm25Bands[i].aqiLo
    ensures Pm25ToAqi(Pm25Bands[i].concHi) == Pm25Bands[i].aqiHi
  {
    BandsOrdered();
    var b := Pm25Bands[i];
    Pm25InBand(i, b.concLo);
    Pm25InBand(i, b.concHi);
    BandAqiAtEnds(b);
  }

  /** The breakpoints quoted for the table: 0 -> 0, 12 -> 50, 12.1 -> 51, 35.4 -> 100,
      500.4 -> 500. */
  lemma Pm25Breakpoints()
    ensures Pm25ToAqi(0.0) == 0 && Pm25ToAqi(12.0) == 50 && Pm25ToAqi(12.1) == 51
    ensures Pm25ToAqi(35.4) == 100 && Pm25ToAqi(35.5) == 101 && Pm25ToAqi(500.4) == 500
  {
    Pm25BandEndpoints(0);
    Pm25BandEndpoints(1);
    Pm25BandEndpoints(2);
    Pm25BandEndpoints(5);
  }

  /** Over concentrations that lie in some band, the conversion is non-decreasing,
      also across bands. */
  lemma Pm25MonotoneOnBands(x: real, y: real)
    requires x <= y
    requires BandContaining(x) < |Pm25Bands| && BandContaining(y) < |Pm25Bands|
    ensures Pm25ToAqi(x) <= Pm25ToAqi(y)
  {
    BandsOrdered();
    var i, j := BandContaining(x), BandContaining(y);
    if i == j {
      BandAqiMonotone(Pm25Bands[i], x, y);
    } else if i < j {
      BandAqiWithin(Pm25Bands[i], x);
      BandAqiWithin(Pm25Bands[j], y);
    } else {
      assert false;
    }
  }

  /** Concentrations above the table saturate at 500. */
  lemma Pm25Saturates(pm25: real)
    requires pm25 > 500.4
    ensures Pm25ToAqi(pm25) == 500
  {
    BandsOrdered();
    var i := BandContaining(pm25);
    if i < |Pm25Bands| {
      assert false;
    }
  }

  /** Negative concentrations, and concentrations that fall between two bands,
      are reported as 0. */
  lemma Pm25GapsAreZero(pm25: real)
    requires pm25 < 0.0 || 12.0 < pm25 < 12.1 || 35.4 < pm25 < 35.5 || 55.4 < pm25 < 55.5
      || 150.4 < pm25 < 150.5 || 250.4 < pm25 < 250.5
    ensures Pm25ToAqi(pm25) == 0
  {
    BandsOrdered();
    var i := BandContaining(pm25);
    if i < |Pm25Bands| {
      assert false;
    }
  }

  /** As written, the conversion is not monotone: 12.05 lies between the first two
      bands and reports AQI 0, below the 50 reported for 12.0. */
  lemma Pm25GapBreaksMonotonicity()
    ensures 12.0 < 12.05 && Pm25ToAqi(12.0) == 50 && Pm25ToAqi(12.05) == 0
  {
    Pm25Breakpoints();
    Pm25GapsAreZero(12.05);
  }

  /** A concentration truncated to one decimal place, as the EPA procedure does
      before the table lookup. */
  function TruncateToTenth(pm25: real): (t: real)
    ensures t <= pm25 < t + 0.1
  {
    (pm25 * 10.0).Floor as real / 10.0
  }

  /** Every concentration in [0, 500.4], once truncated, lies in some band. */
  lemma TruncatedInSomeBand(pm25: real)
    requires 0.0 <= pm25 <= 500.4
    ensures BandContaining(TruncateToTenth(pm25)) < |Pm25Bands|
  {
    var k := (pm25 * 10.0).Floor;
    var t := TruncateToTenth(pm25);
    assert t == k as real / 10.0;
    assert 0 <= k <= 5004;
    var i: nat :=
      if k <= 120 then 0 else if k <= 354 then 1 else if k <= 554 then 2
      else if k <= 1504 then 3 else if k <= 2504 then 4 else 5;
    assert InBand(Pm25Bands[i], t);
    Pm25InBand(i, t);
  }

  /** The conversion with the input first truncated to one decimal place: no
      concentration falls between two bands any more. */
  function Pm25ToAqiTruncated(pm25: real): (r: int)
    ensures 0 <= r <= 500
  {
    Pm25ToAqi(TruncateToTenth(pm25))
  }

  /** With truncation the conversion is non-decreasing over all concentrations. */
  lemma Pm25ToAqiTruncatedMonotone(x: real, y: real)
    requires x <= y
    ensures Pm25ToAqiTruncated(x) <= Pm25ToAqiTruncated(y)
  {
    var tx, ty := TruncateToTenth(x), TruncateToTenth(y);
    assert tx <= ty by {
      assert (x * 10.0).Floor <= (y * 10.0).Floor;
    }
    if tx > 500.4 {
      Pm25Saturates(ty);
    } else if ty > 500.4 {
      Pm25Saturates(ty);
    } else if tx < 0.0 {
      Pm25GapsAreZero(tx);
    } else {
      assert 0.0 <= x <= 500.5;
      assert (x * 10.0).Floor <= 5004;
      TruncatedInSomeBand(if x <= 500.4 then x else 500.4);
      assert x > 500.4 ==> (x * 10.0).Floor == 5004;
      assert BandContaining(tx) < |Pm25Bands| by {
        if x > 500.4 { assert tx == TruncateToTenth(500.4); }
      }
      assert BandContaining(ty) < |Pm25Bands| by {
        assert 0.0 <= y;
        if y <= 500.4 {
          TruncatedInSomeBand(y);
        } else {
          assert (y * 10.0).Floor == 5004;
          TruncatedInSomeBand(500.4);
          assert ty == TruncateToTenth(500.4);
        }
      }
      Pm25MonotoneOnBands(tx, ty);
    }
  }

  /** With truncation, 12.05 reads as 12.0 and reports 50. */
  lemma Pm25TruncatedClosesGap()
    ensures Pm25ToAqiTruncated(12.05) == 50
  {
    assert (12.05 * 10.0).Floor == 120;
    assert TruncateToTenth(12.05) == 12.0;
    Pm25Breakpoints();
  }

  // ---------------------------------------------------------------------------
  // Severity tiers
  // ---------------------------------------------------------------------------

  /** The tier an AQI belongs to, read off the table's bounds: an independent
      statement of "first tier whose max is at least the AQI". */
  function TierOf(aqi: int): (i: nat)
    ensures i < |AqiBreakpoints| && Admits(AqiBreakpoints[i], aqi)
    ensures forall j :: 0 <= j < i ==> !Admits(AqiBreakpoints[j], aqi)
  {
    if aqi <= 50 then 0 else if aqi <= 100 then 1 else if aqi <= 150 then 2
    else if aqi <= 200 then 3 else if aqi <= 300 then 4 else 5
  }

  function FirstAdmittingTier(aqi: int): (i: nat)
    ensures i <= |AqiBreakpoints|
  {
    FirstIndexWhere(AqiBreakpoints, (t: Tier) => Admits(t, aqi))
  }

  /** The lookup loop stops at the tier `TierOf` names, never running off the table. */
  lemma FirstAdmittingTierIsTierOf(aqi: int)
    ensures FirstAdmittingTier(aqi) == TierOf(aqi)
  {
    var f, t := FirstAdmittingTier(aqi), TierOf(aqi);
    assert f <= t;
    assert Admits(AqiBreakpoints[f], aqi);
  }

  /** `getAQIColor`: the colour of the first tier whose max is at least `aqi`. */
  function GetAqiColor(aqi: int): (color: string)
    ensures color == AqiBreakpoints[TierOf(aqi)].color
  {
    FirstAdmittingTierIsTierOf(aqi);
    var i := FirstAdmittingTier(aqi);
    if i < |AqiBreakpoints| then AqiBreakpoints[i].color
    else "#7c3aed"
  }

  /** `getAQILabel`: the label of the first tier whose max is at least `aqi`. */
  function GetAqiLabel(aqi: int): (lbl: string)
    ensures lbl == AqiBreakpoints[TierOf(aqi)].labelText
  {
    FirstAdmittingTierIsTierOf(aqi);
    var i := FirstAdmittingTier(aqi);
    if i < |AqiBreakpoints| then AqiBreakpoints[i].labelText
    else "Hazardous"
  }

  /** Colour and label always come from the same tier, and the colour is a hex colour. */
  lemma ColorAndLabelAgree(aqi: int)
    ensures exists i :: (0 <= i < |AqiBreakpoints| &&
      GetAqiColor(aqi) == AqiBreakpoints[i].color && GetAqiLabel(aqi) == AqiBreakpoints[i].labelText)
    ensures IsHexColor(GetAqiColor(aqi))
  {
    TierColorsAreHex();
    var i := TierOf(aqi);
    assert GetAqiColor(aqi) == AqiBreakpoints[i].color;
  }

  /** Tier edges: 50 is Good, 51 Moderate, 300 Very Unhealthy, 301 Hazardous. */
  lemma TierEdges()
    ensures GetAqiLabel(50) == "Good" && GetAqiLabel(51) == "Moderate"
    ensures GetAqiLabel(300) == "Very Unhealthy" && GetAqiLabel(301) == "Hazardous"
    ensures GetAqiColor(50) == "#22c55e" && GetAqiColor(301) == "#7c3aed"
  {
  }

  // ---------------------------------------------------------------------------
  // Demo and grid generators
  // ---------------------------------------------------------------------------

  const Pi: real := 3.141592653589793

  const StationNames: seq<string> := [
    "Jayanagar Station", "Koramangala Monitor", "Indiranagar Sensor",
    "Whitefield AQ", "MG Road Station", "BTM Layout Monitor",
    "HSR Layout Sensor", "Electronic City AQ", "Marathahalli Station",
    "Bellandur Monitor", "Hebbal Sensor", "Yelahanka AQ",
    "JP Nagar Station", "Bannerghatta Monitor", "RT Nagar Sensor",
    "Malleshwaram AQ", "Rajajinagar Station", "Basavanagudi Monitor",
    "Domlur Sensor", "Sadashivanagar AQ", "KR Puram Station",
    "Peenya Monitor", "Yeshwanthpur Sensor", "Vijayanagar AQ",
    "Majestic Station", "Shivajinagar Monitor", "Ulsoor Sensor",
    "Frazer Town AQ", "Cox Town Station", "Vasanth Nagar Monitor"
  ]

  /** `STATION_NAMES[i % STATION_NAMES.length]`: the names repeat every 30 stations. */
  function StationName(i: nat): string {
    StationNames[i % |StationNames|]
  }

  /** The `i`-th demo station: a polar offset from the centre drawn from the seeded
      generator, and an AQI of `round(40 + draw * 120)`. */
  function DemoStation(centerLat: real, centerLng: real, radiusDeg: real,
                       rand: int -> Unit, sin: real -> real, cos: real -> real, i: nat): Station
  {
    var angle := DemoAngle(rand, i);
    var dist := DemoDistance(rand, radiusDeg, i);
    Station(90000 + i, StationName(i),
            Some(Pos(centerLat + sin(angle) * dist, centerLng + cos(angle) * dist)),
            Round(40.0 + rand(i * 17 + 11) * 120.0))
  }

  /** The bearing of the `i`-th demo station, in radians. */
  function DemoAngle(rand: int -> Unit, i: nat): real {
    rand(i * 7 + 3) * Pi * 2.0
  }

  /** The distance of the `i`-th demo station from the centre, in degrees. */
  function DemoDistance(rand: int -> Unit, radiusDeg: real, i: nat): real {
    rand(i * 13 + 5) * radiusDeg
  }

  /** Demo stations have consecutive ids from 90000, names cycling through the
      30-name list, and an AQI in [40, 160]. */
  lemma DemoStationShape(centerLat: real, centerLng: real, radiusDeg: real,
                         rand: int -> Unit, sin: real -> real, cos: real -> real, i: nat)
    ensures DemoStation(centerLat, centerLng, radiusDeg, rand, sin, cos, i).id == 90000 + i
    ensures DemoStation(centerLat, centerLng, radiusDeg, rand, sin, cos, i).name == StationNames[i % 30]
    ensures DemoStation(centerLat, centerLng, radiusDeg, rand, sin, cos, i).name
      == DemoStation(centerLat, centerLng, radiusDeg, rand, sin, cos, i + 30).name
    ensures 40 <= DemoStation(centerLat, centerLng, radiusDeg, rand, sin, cos, i).aqi <= 160
  {
    var u: real := rand(i * 17 + 11);
    assert 0.0 <= u * 120.0 <= 120.0;
    RoundBetween(40.0 + u * 120.0, 40, 160);
    assert |StationNames| == 30;
    assert (i + 30) % 30 == i % 30;
  }

  /** `generateDemoStations`: `count` stations (none for a non-positive count). */
  method GenerateDemoStations(centerLat: real, centerLng: real, count: int, radiusDeg: real,
                              rand: int -> Unit, sin: real -> real, cos: real -> real)
    returns (stations: seq<Station>)
    ensures |stations| == if count > 0 then count else 0
    ensures forall i :: 0 <= i < |stations| ==>
      stations[i] == DemoStation(centerLat, centerLng, radiusDeg, rand, sin, cos, i)
  {
    stations := [];
    var i := 0;
    while i < count
      invariant 0 <= i && (count > 0 ==> i <= count) && (count <= 0 ==> i == 0)
      invariant |stations| == i
      invariant forall k :: 0 <= k < i ==>
        stations[k] == DemoStation(centerLat, centerLng, radiusDeg, rand, sin, cos, k)
    {
      var angle := DemoAngle(rand, i);
      var dist := DemoDistance(rand, radiusDeg, i);
      var lat := centerLat + sin(angle) * dist;
      var lng := centerLng + cos(angle) * dist;
      var baseAqi := 40.0 + rand(i * 17 + 11) * 120.0;
      var aqi := Round(baseAqi);
      ghost var d := DemoStation(centerLat, centerLng, radiusDeg, rand, sin, cos, i);
      assert d.coordinates.value.lat == lat && d.coordinates.value.lng == lng && d.aqi == aqi;
      stations := stations + [Station(90000 + i, StationName(i), Some(Pos(lat, lng)), aqi)];
      i := i + 1;
    }
  }

  /** The grid point in row `r`, column `c`: offsets of `(index - half) / half`
      spreads from the centre, and an AQI of `round(30 + draw * 140)`. */
  function GridPoint(centerLat: real, centerLng: real, gridSize: nat, spreadDeg: real,
                     rand: int -> Unit, r: nat, c: nat): Station
    requires gridSize != 1
  {
    Station(80000 + r * gridSize + c,
            GridName(r, c),
            Some(Pos(centerLat + GridOffset(gridSize, spreadDeg, r),
                     centerLng + GridOffset(gridSize, spreadDeg, c))),
            Round(30.0 + rand(r * 100 + c * 7 + 42) * 140.0))
  }

  /** The offset of row or column `index` from the centre: `((index - half) / half) * spread`
      with `half = (gridSize - 1) / 2`, so index 0 is at `-spread` and the last at `+spread`. */
  function GridOffset(gridSize: nat, spreadDeg: real, index: nat): real
    requires gridSize != 1
  {
    var half := (gridSize - 1) as real / 2.0;
    ((index as real - half) / half) * spreadDeg
  }

  /** The grid spans exactly `spread` on either side: the first row (column) sits at
      `-spread`, the last at `+spread`, and mirrored indices have opposite offsets. */
  lemma GridOffsetSymmetric(gridSize: nat, spreadDeg: real, index: nat)
    requires gridSize >= 2 && index < gridSize
    ensures GridOffset(gridSize, spreadDeg, 0) == -spreadDeg
    ensures GridOffset(gridSize, spreadDeg, gridSize - 1) == spreadDeg
    ensures GridOffset(gridSize, spreadDeg, gridSize - 1 - index) == -GridOffset(gridSize, spreadDeg, index)
  {
    var half := (gridSize - 1) as real / 2.0;
    assert half > 0.0;
    assert (0.0 - half) / half == -1.0;
    assert ((gridSize - 1) as real - half) / half == 1.0;
    assert ((gridSize - 1 - index) as real - half) == -(index as real - half);
  }

  /** `Grid ${row},${col}`. */
  function GridName(r: nat, c: nat): string {
    "Grid " + NatToString(r) + "," + NatToString(c)
  }

  /** Every grid AQI lies in [30, 170]. */
  lemma GridPointAqiRange(centerLat: real, centerLng: real, gridSize: nat, spreadDeg: real,
                          rand: int -> Unit, r: nat, c: nat)
    requires gridSize != 1
    ensures 30 <= GridPoint(centerLat, centerLng, gridSize, spreadDeg, rand, r, c).aqi <= 170
  {
    var u: real := rand(r * 100 + c * 7 + 42);
    assert 0.0 <= u * 140.0 <= 140.0;
    RoundBetween(30.0 + u * 140.0, 30, 170);
  }

  /** Row `r` of the grid, columns in order. */
  function GridRow(centerLat: real, centerLng: real, gridSize: nat, spreadDeg: real,
                   rand: int -> Unit, r: nat): (row: seq<Station>)
    requires gridSize != 1
    ensures |row| == gridSize
  {
    seq(gridSize, c requires 0 <= c < gridSize => GridPoint(centerLat, centerLng, gridSize, spreadDeg, rand, r, c))
  }

  /** The first `rows` rows of the grid, row after row. */
  function GridRows(centerLat: real, centerLng: real, gridSize: nat, spreadDeg: real,
                    rand: int -> Unit, rows: nat): (g: seq<Station>)
    requires gridSize != 1
    ensures |g| == rows * gridSize
  {
    if rows == 0 then []
    else
      GridRows(centerLat, centerLng, gridSize, spreadDeg, rand, rows - 1)
        + GridRow(centerLat, centerLng, gridSize, spreadDeg, rand, rows - 1)
  }

  /** Row-major layout: the point of row `r`, column `c` sits at `r * gridSize + c`. */
  lemma {:induction false} GridRowsIndex(centerLat: real, centerLng: real, gridSize: nat, spreadDeg: real,
                                         rand: int -> Unit, rows: nat, r: nat, c: nat)
    requires gridSize != 1 && r < rows && c < gridSize
    ensures r * gridSize + c < rows * gridSize
    ensures GridRows(centerLat, centerLng, gridSize, spreadDeg, rand, rows)[r * gridSize + c]
      == GridPoint(centerLat, centerLng, gridSize, spreadDeg, rand, r, c)
  {
    var prev := GridRows(centerLat, centerLng, gridSize, spreadDeg, rand, rows - 1);
    if r == rows - 1 {
      assert r * gridSize + c == |prev| + c;
    } else {
      GridRowsIndex(centerLat, centerLng, gridSize, spreadDeg, rand, rows - 1, r, c);
    }
  }

  /** Every point of the first `rows` rows has id `80000 + position` and an AQI in [30, 170]. */
  lemma {:induction false} GridRowsShape(centerLat: real, centerLng: real, gridSize: nat, spreadDeg: real,
                                         rand: int -> Unit, rows: nat)
    requires gridSize != 1
    ensures forall k :: 0 <= k < |GridRows(centerLat, centerLng, gridSize, spreadDeg, rand, rows)| ==>
      GridRows(centerLat, centerLng, gridSize, spreadDeg, rand, rows)[k].id == 80000 + k
      && 30 <= GridRows(centerLat, centerLng, gridSize, spreadDeg, rand, rows)[k].aqi <= 170
  {
    if rows > 0 {
      var prev := GridRows(centerLat, centerLng, gridSize, spreadDeg, rand, rows - 1);
      var row := GridRow(centerLat, centerLng, gridSize, spreadDeg, rand, rows - 1);
      GridRowsShape(centerLat, centerLng, gridSize, spreadDeg, rand, rows - 1);
      forall c | 0 <= c < gridSize ensures row[c].id == 80000 + |prev| + c && 30 <= row[c].aqi <= 170 {
        GridPointAqiRange(centerLat, centerLng, gridSize, spreadDeg, rand, rows - 1, c);
      }
    }
  }

  /** The inner loop of `generateAQIGrid`: the points of row `r`, numbered on from
      `firstId`. */
  method GridRowPoints(centerLat: real, centerLng: real, gridSize: nat, spreadDeg: real,
                       rand: int -> Unit, r: nat, firstId: int)
    returns (row: seq<Station>)
    requires gridSize != 1 && firstId == 80000 + r * gridSize
    ensures row == GridRow(centerLat, centerLng, gridSize, spreadDeg, rand, r)
  {
    ghost var spec := GridRow(centerLat, centerLng, gridSize, spreadDeg, rand, r);
    var id := firstId;
    row := [];
    var c := 0;
    while c < gridSize
      invariant 0 <= c <= gridSize
      invariant row == spec[..c]
      invariant id == firstId + c
    {
      var lat := centerLat + GridOffset(gridSize, spreadDeg, r);
      var lng := centerLng + GridOffset(gridSize, spreadDeg, c);
      var aqi := Round(30.0 + rand(r * 100 + c * 7 + 42) * 140.0);
      assert spec[..c + 1] == spec[..c] + [spec[c]];
      row := row + [Station(id, GridName(r, c), Some(Pos(lat, lng)), aqi)];
      id := id + 1;
      c := c + 1;
    }
    assert spec[..c] == spec;
  }

  /** `generateAQIGrid`: gridSize * gridSize points, row after row, with consecutive
      ids from 80000 and AQIs in [30, 170]. Each point is a function of the
      arguments and its row and column only, so equal arguments give equal grids. */
  method GenerateAqiGrid(centerLat: real, centerLng: real, gridSize: nat, spreadDeg: real,
                         rand: int -> Unit)
    returns (points: seq<Station>)
    requires gridSize != 1
    ensures points == GridRows(centerLat, centerLng, gridSize, spreadDeg, rand, gridSize)
    ensures |points| == gridSize * gridSize
    ensures forall k :: 0 <= k < |points| ==> points[k].id == 80000 + k && 30 <= points[k].aqi <= 170
  {
    points := [];
    var id := 80000;
    var r := 0;
    while r < gridSize
      invariant 0 <= r <= gridSize
      invariant points == GridRows(centerLat, centerLng, gridSize, spreadDeg, rand, r)
      invariant id == 80000 + r * gridSize
    {
      var row := GridRowPoints(centerLat, centerLng, gridSize, spreadDeg, rand, r, id);
      points := points + row;
      id := id + gridSize;
      r := r + 1;
    }
    GridRowsShape(centerLat, centerLng, gridSize, spreadDeg, rand, gridSize);
  }

  // ---------------------------------------------------------------------------
  // Route checkpoints and the route AQI
  // ---------------------------------------------------------------------------

  /** `getRouteCoordinates`: a non-empty stored coordinate array is read entry by
      entry (an entry that is not an array stands for the origin); anything else
      becomes the straight segment [origin, destination]. */
  function RouteCoordinates(route: Route): (cs: seq<Pos>)
    ensures |cs| >= 1
  {
    var origin := Pos(route.origin.lat, route.origin.lng);
    match route.polyline
    case Points(entries) =>
      if |entries| > 0 then
        seq(|entries|, i requires 0 <= i < |entries| =>
          match entries[i] case Pair(p) => p case NotPair => origin)
      else [origin, Pos(route.destination.lat, route.destination.lng)]
    case Encoded(_) => [origin, Pos(route.destination.lat, route.destination.lng)]
  }

  /** Storing a coordinate list on a route and reading it back gives it back;
      storing an empty one reads back as the straight segment. */
  lemma RouteCoordinatesRoundTrip(route: Route, coords: seq<Pos>)
    ensures coords != [] ==> RouteCoordinates(route.(polyline := PolylineOf(coords))) == coords
    ensures coords == [] ==> (RouteCoordinates(route.(polyline := PolylineOf(coords)))
      == [Pos(route.origin.lat, route.origin.lng), Pos(route.destination.lat, route.destination.lng)])
  {
  }

  /** The spacing between checkpoints: `(len - 1) / (n - 1)` vertices. */
  function CheckpointStep(len: nat, n: nat): real
    requires n >= 2
  {
    (len - 1) as real / (n - 1) as real
  }

  /** The vertex index for checkpoint `i`: `Math.min(Math.floor(i * step), len - 1)`. */
  function CheckpointIndex(i: nat, len: nat, n: nat): (k: nat)
    requires n >= 2 && len >= 1
    ensures k < len
  {
    var f := ((i as real) * CheckpointStep(len, n)).Floor;
    if f < 0 then 0 else Min(f, len - 1)
  }

  function CheckpointIndices(len: nat, n: nat): (idx: seq<nat>)
    requires n >= 2 && len >= 1
    ensures |idx| == n && forall k :: 0 <= k < n ==> idx[k] < len
  {
    seq(n, i requires 0 <= i < n => CheckpointIndex(i, len, n))
  }

  /** `samplePointsAlongRoute`, as a function of its inputs. */
  function Checkpoints(coords: seq<Pos>, n: nat): seq<Pos>
    requires n >= 2
  {
    if |coords| <= n then coords else Pick(coords, CheckpointIndices(|coords|, n))
  }

  /** With more vertices than checkpoints the step is at least one vertex, and
      `n - 1` steps reach the last vertex exactly. */
  lemma CheckpointStepBounds(len: nat, n: nat)
    requires n >= 2 && len > n
    ensures CheckpointStep(len, n) >= 1.0
    ensures (n - 1) as real * CheckpointStep(len, n) == (len - 1) as real
  {
    var a, b := (len - 1) as real, (n - 1) as real;
    var q := a / b;
    assert q * b == a;
    assert (q - 1.0) * b == a - b;
  }

  /** Whole multiples of a step of at least one have strictly increasing floors. */
  lemma FloorOfMultiplesIncreasing(i: nat, j: nat, step: real)
    requires i < j && step >= 1.0
    ensures 0 <= ((i as real) * step).Floor < ((j as real) * step).Floor
  {
    assert (j as real) * step - (i as real) * step == (j - i) as real * step;
    assert (j - i) as real * step >= (j - i) as real;
  }

  /** For a route longer than `n`, the checkpoint indices start at 0, end at the
      last vertex and strictly increase. */
  lemma CheckpointIndicesShape(len: nat, n: nat)
    requires n >= 2 && len > n
    ensures CheckpointIndices(len, n)[0] == 0
    ensures CheckpointIndices(len, n)[n - 1] == len - 1
    ensures StrictlyIncreasing(CheckpointIndices(len, n))
  {
    var idx := CheckpointIndices(len, n);
    var step := CheckpointStep(len, n);
    CheckpointStepBounds(len, n);
    assert idx[n - 1] == len - 1;
    forall i, j | 0 <= i < j < n ensures idx[i] < idx[j] {
      CheckpointIndexIncreasing(i, j, len, n);
    }
  }

  /** A later checkpoint sits at a later vertex. */
  lemma CheckpointIndexIncreasing(i: nat, j: nat, len: nat, n: nat)
    requires n >= 2 && len > n && i < j < n
    ensures CheckpointIndex(i, len, n) < CheckpointIndex(j, len, n)
  {
    var step := CheckpointStep(len, n);
    CheckpointIndexIsFloor(i, len, n);
    CheckpointIndexIsFloor(j, len, n);
    FloorOfMultiplesIncreasing(i, j, step);
  }

  /** With more vertices than checkpoints, the cap at the last vertex never bites:
      checkpoint `i` sits at the floor of `i` steps. */
  lemma CheckpointIndexIsFloor(i: nat, len: nat, n: nat)
    requires n >= 2 && len > n && i < n
    ensures CheckpointStep(len, n) >= 1.0
    ensures CheckpointIndex(i, len, n) == ((i as real) * CheckpointStep(len, n)).Floor
  {
    var step := CheckpointStep(len, n);
    CheckpointStepBounds(len, n);
    assert ((n - 1) as real * step).Floor == len - 1;
    if i < n - 1 {
      FloorOfMultiplesIncreasing(i, n - 1, step);
    }
  }

  /** With more vertices than checkpoints: exactly `n` vertices, picked at strictly
      increasing positions, the first and last vertex included. Otherwise the
      input is returned unchanged. */
  lemma CheckpointsShape(coords: seq<Pos>, n: nat)
    requires n >= 2
    ensures |coords| <= n ==> Checkpoints(coords, n) == coords
    ensures |coords| > n ==> (|Checkpoints(coords, n)| == n
      && Checkpoints(coords, n)[0] == coords[0]
      && Checkpoints(coords, n)[n - 1] == coords[|coords| - 1])
    ensures IsSubsequence(Checkpoints(coords, n), coords)
  {
    if |coords| > n {
      CheckpointIndicesShape(|coords|, n);
      PickIsSubsequence(coords, CheckpointIndices(|coords|, n));
    } else {
      SubsequenceOfSelf(coords);
    }
  }

  /** `samplePointsAlongRoute`. */
  method SamplePointsAlongRoute(coords: seq<Pos>, n: nat) returns (out: seq<Pos>)
    requires n >= 2
    ensures out == Checkpoints(coords, n)
  {
    if |coords| <= n {
      return coords;
    }
    var step := (|coords| - 1) as real / (n - 1) as real;
    ghost var idx := CheckpointIndices(|coords|, n);
    out := [];
    var i := 0;
    while i < n
      invariant 0 <= i <= n
      invariant out == Pick(coords, idx[..i])
    {
      var f := ((i as real) * step).Floor;
      var k := if f < 0 then 0 else Min(f, |coords| - 1);
      assert k == idx[i];
      assert idx[..i + 1] == idx[..i] + [idx[i]];
      out := out + [coords[k]];
      i := i + 1;
    }
    assert idx[..i] == idx;
  }

  /** The readings with repeated station ids removed, first occurrence kept. */
  function DistinctStations(readings: seq<Station>): seq<Station> {
    DedupBy(readings, StationId, {})
  }

  function AqisOf(ss: seq<Station>): (r: seq<int>)
    ensures |r| == |ss| && forall i :: 0 <= i < |ss| ==> r[i] == ss[i].aqi
  {
    seq(|ss|, i requires 0 <= i < |ss| => ss[i].aqi)
  }

  /** The tail of `getAQIForRoute`, as a function of the collected readings. */
  function RouteAqi(readings: seq<Station>, lastAQI: Option<int>): Option<int> {
    if readings == [] then lastAQI
    else
      var distinct := DistinctStations(readings);
      if |distinct| > 0 then Some(RoundedMean(AqisOf(distinct))) else lastAQI
  }

  /** With readings, the route AQI is present and lies between the smallest and
      the largest reading; without, it is the previous estimate. */
  lemma RouteAqiBetween(readings: seq<Station>, lastAQI: Option<int>, lo: int, hi: int)
    requires forall i :: 0 <= i < |readings| ==> lo <= readings[i].aqi <= hi
    ensures readings == [] ==> RouteAqi(readings, lastAQI) == lastAQI
    ensures readings != [] ==> (RouteAqi(readings, lastAQI).Some?
      && lo <= RouteAqi(readings, lastAQI).value <= hi)
  {
    if readings != [] {
      var d := DistinctStations(readings);
      DedupByNonEmpty(readings, StationId);
      forall i | 0 <= i < |d| ensures lo <= AqisOf(d)[i] <= hi {
        assert d[i] in readings;
      }
      RoundedMeanBetween(AqisOf(d), lo, hi);
    }
  }

  /** A station seen again from a later checkpoint does not change the route AQI:
      each station counts once. */
  lemma RouteAqiIgnoresRepeats(readings: seq<Station>, again: Station, lastAQI: Option<int>)
    requires exists i :: 0 <= i < |readings| && readings[i].id == again.id
    ensures RouteAqi(readings + [again], lastAQI) == RouteAqi(readings, lastAQI)
  {
    DedupByAppend(readings, [again], StationId, {});
    var i :| 0 <= i < |readings| && readings[i].id == again.id;
    assert StationId(again) in KeysOf(readings, StationId) by {
      assert StationId(readings[i]) == StationId(again);
    }
    assert DedupBy([again], StationId, {} + KeysOf(readings, StationId)) == [];
    assert DistinctStations(readings + [again]) == DistinctStations(readings);
  }

  /** The station ids counted are pairwise distinct, and each is counted with the
      reading of its first occurrence. */
  lemma DistinctStationsAreFirstOccurrences(readings: seq<Station>)
    ensures forall i, j :: 0 <= i < j < |DistinctStations(readings)| ==>
      DistinctStations(readings)[i].id != DistinctStations(readings)[j].id
    ensures DistinctStations(readings) == FirstOccurrencesFrom(readings, StationId, 0)
    ensures KeysOf(DistinctStations(readings), StationId) == KeysOf(readings, StationId)
  {
    DedupByDistinct(readings, StationId, {});
    DedupByFirstOccurrences(readings, StationId);
    DedupByKeys(readings, StationId, {});
  }

  /** One step of the deduplicating walk: a reading of a station already seen adds
      nothing, a new station adds its AQI to the sum and one to the count. */
  lemma DedupTotalsStep(ss: seq<Station>, seen: set<int>)
    requires ss != []
    ensures ss[0].id in seen ==> DedupBy(ss, StationId, seen) == DedupBy(ss[1..], StationId, seen)
    ensures ss[0].id !in seen ==>
      && Sum(AqisOf(DedupBy(ss, StationId, seen)))
           == ss[0].aqi + Sum(AqisOf(DedupBy(ss[1..], StationId, seen + {ss[0].id})))
      && |DedupBy(ss, StationId, seen)| == 1 + |DedupBy(ss[1..], StationId, seen + {ss[0].id})|
  {
    if ss[0].id !in seen {
      var rest := DedupBy(ss[1..], StationId, seen + {ss[0].id});
      var kept := DedupBy(ss, StationId, seen);
      assert kept == [ss[0]] + rest;
      var xs := AqisOf(kept);
      assert xs[0] == ss[0].aqi && xs[1..] == AqisOf(rest);
    }
  }

  /** The deduplicating mean loop of `getAQIForRoute` (its early return for no
      readings, then the `seen` / `sum` / `count` walk). */
  method RouteAqiFromReadings(readings: seq<Station>, lastAQI: Option<int>) returns (r: Option<int>)
    ensures r == RouteAqi(readings, lastAQI)
  {
    if |readings| == 0 {
      return lastAQI;
    }
    var seen: set<int> := {};
    var sum := 0;
    var count := 0;
    var i := 0;
    ghost var all := DistinctStations(readings);
    while i < |readings|
      invariant 0 <= i <= |readings|
      invariant sum + Sum(AqisOf(DedupBy(readings[i..], StationId, seen))) == Sum(AqisOf(all))
      invariant count + |DedupBy(readings[i..], StationId, seen)| == |all|
    {
      var s := readings[i];
      assert readings[i..][0] == s && readings[i..][1..] == readings[i + 1..];
      DedupTotalsStep(readings[i..], seen);
      if s.id in seen {
        i := i + 1;
        continue;
      }
      seen := seen + {s.id};
      sum := sum + s.aqi;
      count := count + 1;
      i := i + 1;
    }
    assert readings[i..] == [];
    if count > 0 {
      r := Some(Round(sum as real / count as real));
    } else {
      r := lastAQI;
    }
  }

  /** All readings gathered from the checkpoints, in checkpoint order. */
  function Gathered(samples: seq<Pos>, readingsNear: Pos -> seq<Station>): seq<Station>
    decreases |samples|
  {
    if samples == [] then []
    else Gathered(samples[..|samples| - 1], readingsNear) + readingsNear(samples[|samples| - 1])
  }

  /** `getAQIForRoute`. `readingsNear(p)` stands for the stations found within 5 km
      of `p` that reported a measurement, with that measurement's AQI. */
  method GetAqiForRoute(route: Route, readingsNear: Pos -> seq<Station>) returns (r: Option<int>)
    ensures r == RouteAqi(Gathered(Checkpoints(RouteCoordinates(route), 5), readingsNear), route.lastAQI)
  {
    var coords := RouteCoordinates(route);
    var samples := SamplePointsAlongRoute(coords, 5);
    var collected: seq<Station> := [];
    var i := 0;
    while i < |samples|
      invariant 0 <= i <= |samples|
      invariant collected == Gathered(samples[..i], readingsNear)
    {
      assert samples[..i + 1][..i] == samples[..i];
      collected := collected + readingsNear(samples[i]);
      i := i + 1;
    }
    assert samples[..i] == samples;
    r := RouteAqiFromReadings(collected, route.lastAQI);
  }
}
