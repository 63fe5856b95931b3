# Anti-Pollution Routes — a verified model of its AQI and route logic

Anti-Pollution Routes is a web app. Users save their daily routes, see the air
quality (AQI, the US Air Quality Index) along them on a map, and ask for the
least polluted alternative. This project models the deterministic core of that
app in Dafny and proves what it promises.

- **AQI arithmetic.** The PM2.5 → AQI breakpoint formula (Equation 1 of the US
  EPA *Technical Assistance Document for the Reporting of Daily Air Quality*,
  EPA-454/B-18-007). Also the six-tier severity table with its colours and
  labels, and the badge and legend derived from that table.
- **Route sampling.** The `n` evenly spaced checkpoints used to estimate a
  route's AQI. Also the distance-driven sampling of a polyline that places map
  labels, and the zoom tables that drive it.
- **Aggregation.**
  - The route AQI: a rounded mean over distinct stations, falling back to the
    route's last AQI.
  - Inverse-distance-weighted interpolation, with weights `1/(d+100)`.
  - The header's average AQI.
  - The choice of the least polluted alternative route.
- **Generators.** The demo stations and the map-wide AQI grid, driven by a
  seeded pseudo-random function.
- **List state.** The saved-routes store (`useRoutes`), the schedule store
  (`useSchedule`), the schedule form (day toggle, add guard, chaining stops into
  routes), the route card's day pills, and the legend's toggle.
- **Routing post-processing.**
  - The straight-line fallback and the provider choice.
  - The longitude/latitude swap of GeoJSON positions (section 3.1.1 of RFC 7946).
  - The metre → kilometre conversion.
  - The cap of three alternatives.

## How the model is built

There is one Dafny module per source file, plus three shared modules:

| module | role |
|---|---|
| `Types` | The records |
| `Numbers` | `Math.round` on exact reals, and decimal rendering |
| `Lists` | Filter, first-occurrence dedup, update-by-key, pick-by-index and sum, with their lemmas |

JavaScript numbers become `real`. `Math.round(x)` becomes `Floor(x + 0.5)`.
Values the source rounds become `int`.

Code the source writes as loops that push into arrays becomes a `method` with
loop invariants, proved equal to a specification function:

| method | source |
|---|---|
| `SamplePointsAlongRoute` | `samplePointsAlongRoute` |
| `RouteAqiFromReadings` | the dedup-mean tail of `getAQIForRoute` |
| `GenerateAqiGrid`, `GenerateDemoStations` | the two generators |
| `SamplePointsAlongPolyline` | `samplePointsAlongPolyline` |
| `InterpolateAqi` | `interpolateAQI` |
| `ZoomAdaptiveLabels` | the label assembly of `ZoomAdaptiveRouteLabels` |
| `ScoreAlternatives` | the scoring loop of `suggestBestRoute` |
| `CreateRoutes` | `createRoutes` |

The properties are proved about those specification functions.

React state becomes a `class` whose methods say the whole new state with
`old(...)`: `RouteStore`, `ScheduleStore`, `Form`, `Home` and `Legend`.

What the model cannot see becomes a function parameter:

| parameter | stands for |
|---|---|
| `dist: (Pos, Pos) -> Meters` | Haversine distance, assumed non-negative |
| `rand: int -> Unit` | `seededRandom`, with values in [0, 1) |
| `sin`, `cos` | the trigonometry in the demo stations |
| `readingsNear` | the stations and measurements fetched near a point |
| `alternatives`, `computeRoute` | routing results |
| `newId` | `nanoid` |
| `Option<seq<ResponseRoute>>` | a decoded HTTP response (`None` is a failed request) |

Where the code and its documentation differ, the model follows the code:

- **Best-route ties.** `reduce((a, b) => a.aqi < b.aqi ? a : b)` keeps the
  *later* of two equally scored alternatives, so the model does too.
- **PM2.5 gaps.** The conversion does not truncate its input. Concentrations
  between two bands therefore report 0 (see Findings).
- **Unused weight.** `getAQIForRoute` computes a proximity weight and then
  never uses it. The model returns the unweighted mean the code returns.

## Model

| member | source | states |
|---|---|---|
| Numbers.Round | src/lib/aqi.ts:252 | `Math.round`: the result is the integer within half a unit of the input (halves round up) |
| Numbers.RoundBetween | src/lib/aqi.ts:252 | a value between two integers rounds to a value between them |
| Numbers.RoundMonotone | src/pages/HomePage.tsx:92 | rounding is monotone |
| Numbers.NatToStringRoundTrip | src/components/AQILegend.tsx:35 | the decimal rendering `${n}` reads back to `n` |
| Numbers.NatToStringInjective | src/components/AQILegend.tsx:35 | different numbers render to different strings |
| Numbers.IntToString | src/components/AQIBadge.tsx:28 | the rendering starts with '-' exactly for negative numbers |
| Types.PolylineOf | src/lib/types.ts:27 | a coordinate list stored as a polyline is an array of the same pairs, in order |
| Constants.TiersIncreasing | src/lib/constants.ts:10-17 | six tiers; the first five maxima are finite and strictly increasing from 50 to 300; the last is Infinity |
| Constants.LastTierAdmitsAll | src/lib/constants.ts:16 | the last tier admits every AQI |
| Constants.TierColorsAreHex | src/test/smoke.test.tsx:42-46 | every tier colour matches `/^#[0-9a-f]{6}$/i` |
| Constants.ColorsMatchTiers | src/lib/constants.ts:1-17 | `AQI_COLORS` lists the tier colours in tier order; tier labels are pairwise distinct |
| Aqi.BandsOrdered | src/lib/aqi.ts:27-34 | six well-formed bands, ordered and disjoint in concentration and in AQI |
| Aqi.BandAqiWithin | src/lib/aqi.ts:35-38 | inside a band the result lies in [aqiLo, aqiHi] |
| Aqi.BandAqiMonotone | src/lib/aqi.ts:37 | inside a band the result is non-decreasing in the concentration |
| Aqi.Pm25ToAqi | src/lib/aqi.ts:26-41 | the result is an integer in [0, 500] |
| Aqi.Pm25InBand | src/lib/aqi.ts:35-38 | a concentration in band i is converted by band i's formula |
| Aqi.Pm25BandEndpoints | src/lib/aqi.ts:27-37 | each band's low and high breakpoints map exactly to its low and high AQI |
| Aqi.Pm25Breakpoints | src/lib/aqi.ts:27-37 | 0→0, 12→50, 12.1→51, 35.4→100, 35.5→101, 500.4→500 |
| Aqi.Pm25MonotoneOnBands | src/lib/aqi.ts:35-38 | over concentrations inside some band, the conversion is non-decreasing |
| Aqi.Pm25Saturates | src/lib/aqi.ts:40 | above 500.4 the result is 500 |
| Aqi.Pm25GapsAreZero | src/lib/aqi.ts:40 | negative concentrations and those between two bands give 0 |
| Aqi.Pm25GapBreaksMonotonicity | src/lib/aqi.ts:35-40 | as written, 12.0 gives 50 but the larger 12.05 gives 0 |
| Aqi.TruncateToTenth | src/lib/aqi.ts:26 | truncation to one decimal loses less than 0.1 and never rounds up |
| Aqi.TruncatedInSomeBand | src/lib/aqi.ts:27-34 | every truncated concentration in [0, 500.4] lies in some band |
| Aqi.Pm25ToAqiTruncated | src/lib/aqi.ts:26-41 | the corrected conversion's result lies in [0, 500] |
| Aqi.Pm25ToAqiTruncatedMonotone | src/lib/aqi.ts:26-41 | with the input truncated first, the conversion is non-decreasing over all reals |
| Aqi.Pm25TruncatedClosesGap | src/lib/aqi.ts:26-41 | with truncation, 12.05 reports 50 |
| Aqi.TierOf | src/lib/aqi.ts:43-55 | the tier an AQI falls in: it admits the AQI and no earlier tier does |
| Aqi.FirstAdmittingTierIsTierOf | src/lib/aqi.ts:44-46 | the lookup loop stops at that tier and never runs off the table |
| Aqi.GetAqiColor | src/lib/aqi.ts:43-48 | the colour is that of the first tier whose max is ≥ aqi |
| Aqi.GetAqiLabel | src/lib/aqi.ts:50-55 | the label is that of the first tier whose max is ≥ aqi |
| Aqi.ColorAndLabelAgree | src/lib/aqi.ts:43-55 | colour and label come from the same tier, and the colour is a hex colour |
| Aqi.TierEdges | src/lib/aqi.ts:43-55 | 50→Good, 51→Moderate, 300→Very Unhealthy, 301→Hazardous; the colours at 50 and 301 |
| Aqi.DemoStationShape | src/lib/aqi.ts:86-97 | demo station i has id 90000+i, is named `stationNames[i % 30]` (so names repeat every 30 stations), and has an AQI in [40, 160] |
| Aqi.GenerateDemoStations | src/lib/aqi.ts:66-101 | `count` stations (none for count ≤ 0); station i is the i-th demo station |
| Aqi.GridOffsetSymmetric | src/lib/aqi.ts:112-116 | the grid spans exactly ±spread; row/column k and size-1-k sit symmetrically about the centre |
| Aqi.GridPointAqiRange | src/lib/aqi.ts:117-119 | every grid AQI lies in [30, 170] |
| Aqi.GridRow | src/lib/aqi.ts:114-126 | a row has gridSize points |
| Aqi.GridRows | src/lib/aqi.ts:113-127 | the first r rows hold r·gridSize points |
| Aqi.GridRowsIndex | src/lib/aqi.ts:113-127 | row-major layout: the point of row r, column c is at index r·gridSize + c |
| Aqi.GridRowsShape | src/lib/aqi.ts:111-126 | the point at position k has id 80000+k and AQI in [30, 170] |
| Aqi.GridRowPoints | src/lib/aqi.ts:114-126 | the inner loop pushes exactly row r, with ids following on |
| Aqi.GenerateAqiGrid | src/lib/aqi.ts:104-129 | gridSize² points in row-major order, ids 80000+k, AQIs in [30, 170]; output is a function of the arguments |
| Aqi.RouteCoordinates | src/lib/aqi.ts:198-206 | a route always yields at least one coordinate |
| Aqi.RouteCoordinatesRoundTrip | src/lib/aqi.ts:198-206 | a stored non-empty coordinate list reads back unchanged; an empty one reads as [origin, destination] |
| Aqi.CheckpointIndex | src/lib/aqi.ts:213 | a checkpoint index is a valid vertex index |
| Aqi.CheckpointIndices | src/lib/aqi.ts:212-215 | exactly n valid vertex indices |
| Aqi.CheckpointStepBounds | src/lib/aqi.ts:210 | with more vertices than checkpoints the step is ≥ 1 and (n-1)·step = len-1 |
| Aqi.CheckpointIndexIsFloor | src/lib/aqi.ts:213 | with more vertices than checkpoints the cap never bites: index i is floor(i·step) |
| Aqi.CheckpointIndexIncreasing | src/lib/aqi.ts:213 | a later checkpoint sits at a strictly later vertex |
| Aqi.CheckpointIndicesShape | src/lib/aqi.ts:210-215 | the indices start at 0, end at len-1 and strictly increase |
| Aqi.CheckpointsShape | src/lib/aqi.ts:208-217 | ≤ n vertices come back unchanged; otherwise n vertices, first and last kept, as a subsequence of the input |
| Aqi.SamplePointsAlongRoute | src/lib/aqi.ts:208-217 | the loop returns exactly the checkpoints |
| Aqi.AqisOf | src/lib/aqi.ts:249 | the AQIs of the stations, in order |
| Aqi.RouteAqiBetween | src/lib/aqi.ts:241-252 | with readings the route AQI exists and lies between any bounds on them; without readings it is `lastAQI` |
| Aqi.RouteAqiIgnoresRepeats | src/lib/aqi.ts:246-248 | a reading of a station already seen does not change the route AQI |
| Aqi.DistinctStationsAreFirstOccurrences | src/lib/aqi.ts:243-251 | counted ids are pairwise distinct, each counted at its first occurrence, and every id is counted |
| Aqi.DedupTotalsStep | src/lib/aqi.ts:246-251 | one loop step: a seen id adds nothing; a new id adds its AQI and one to the count |
| Aqi.RouteAqiFromReadings | src/lib/aqi.ts:241-252 | the seen/sum/count loop returns the rounded mean over distinct stations, else `lastAQI` |
| Aqi.GetAqiForRoute | src/lib/aqi.ts:219-253 | the route AQI is the dedup mean over the readings gathered at the 5 checkpoints of the route's coordinates |
| AqiBadge.LabelFromTier | src/components/AQIBadge.tsx:10-15 | searching from any tier up to the AQI's own finds that tier's label |
| AqiBadge.BadgeLabelIsGetAqiLabel | src/components/AQIBadge.tsx:10-15 | the badge's own lookup agrees with `getAQILabel` |
| AqiBadge.PulsesFromUnhealthyTier | src/components/AQIBadge.tsx:21 | the badge pulses (aqi > 150) exactly from the Unhealthy tier on |
| AqiBadge.ShouldShowLabelCases | src/components/AQIBadge.tsx:23 | an explicit `showLabel` wins; otherwise md/lg show the label and sm hides it |
| AqiBadge.SpaceAt | src/components/AQIBadge.tsx:47 | the position of the first space, or the length |
| AqiBadge.ShownLabel | src/components/AQIBadge.tsx:47 | the shown label is a prefix of the label: whole when ≤ 12 characters, else space-free |
| AqiBadge.FirstWordOf | src/components/AQIBadge.tsx:47 | `split(' ')[0]` of `w + " " + rest` is `w` |
| AqiBadge.ShortTierLabelsKept | src/components/AQIBadge.tsx:47 | Good, Moderate, Unhealthy and Hazardous are shown whole |
| AqiBadge.SensitiveLabelCut | src/components/AQIBadge.tsx:47 | "Unhealthy for Sensitive" is shown as "Unhealthy" |
| AqiBadge.VeryUnhealthyLabelCut | src/components/AQIBadge.tsx:47 | "Very Unhealthy" is shown as "Very" |
| AqiBadge.LongLabelCut | src/components/AQIBadge.tsx:47 | any label over 12 characters is shown as its first word |
| AqiBadge.AriaLabelParts | src/components/AQIBadge.tsx:28 | the aria-label is "AQI: " + the number + " — " + the full, untruncated label |
| AqiLegend.RangeLabels | src/components/AQILegend.tsx:33 | one row per tier |
| AqiLegend.GoodRowLabel | src/components/AQILegend.tsx:33-35 | the first row reads "0–50" |
| AqiLegend.ModerateRowLabel | src/components/AQILegend.tsx:33-35 | the second row reads "51–100" |
| AqiLegend.SensitiveRowLabel | src/components/AQILegend.tsx:33-35 | the third row reads "101–150" |
| AqiLegend.UnhealthyRowLabel | src/components/AQILegend.tsx:33-35 | the fourth row reads "151–200" |
| AqiLegend.VeryUnhealthyRowLabel | src/components/AQILegend.tsx:33-35 | the fifth row reads "201–300" |
| AqiLegend.HazardousRowLabel | src/components/AQILegend.tsx:33-35 | the unbounded row reads "301+" |
| AqiLegend.RangesMatchTiers | src/components/AQILegend.tsx:34-35 | the rows tile the non-negative AQIs: an AQI falls in tier i exactly when it lies in row i's range |
| AqiLegend.Legend.constructor | src/components/AQILegend.tsx:6 | the legend starts expanded |
| AqiLegend.Legend.Toggle | src/components/AQILegend.tsx:11 | a click flips `expanded` |
| MapView.EntriesToCoords | src/components/MapView.tsx:21-23 | one coordinate per entry |
| MapView.EntriesToCoordsAt | src/components/MapView.tsx:21-23 | a pair entry reads as itself; anything else reads as the origin |
| MapView.GetCoords | src/components/MapView.tsx:19-29 | a route always yields at least one coordinate |
| MapView.GetCoordsAgrees | src/components/MapView.tsx:19-29 | the map's `getCoords` equals the AQI code's `getRouteCoordinates` on every route |
| MapView.PathLength | src/components/MapView.tsx:52-53 | the distance along the path is non-negative |
| MapView.Emitted | src/components/MapView.tsx:51-59 | the vertices emitted in the loop are valid and strictly increasing |
| MapView.SampleIndices | src/components/MapView.tsx:46-64 | the kept indices start at 0, strictly increase, and the last kept vertex equals the last vertex |
| MapView.SamplesShape | src/components/MapView.tsx:46-64 | < 2 points come back unchanged; otherwise the output starts at the first vertex, ends at the last, and is a subsequence no longer than the input |
| MapView.SpacedCons | src/components/MapView.tsx:53-58 | spacing extends by one emission at the front |
| MapView.EmittedSpacing | src/components/MapView.tsx:49-58 | between consecutive in-loop samples the path is ≥ the interval, and no earlier vertex reached it |
| MapView.EmittedAll | src/components/MapView.tsx:55-58 | with interval ≤ 0 every vertex is emitted |
| MapView.SamplesAllWhenIntervalNonPositive | src/components/MapView.tsx:46-64 | with interval ≤ 0 the polyline comes back unchanged |
| MapView.SamplePointsAlongPolyline | src/components/MapView.tsx:42-67 | the loop and final append return exactly the specified samples |
| MapView.SamplesAfterLoop | src/components/MapView.tsx:61-64 | the final check on the last vertex completes the loop's picks to the specified samples |
| MapView.Weight | src/components/MapView.tsx:80 | `1/(d+100)` is positive |
| MapView.WeightDecreasing | src/components/MapView.tsx:80 | a nearer station weighs at least as much |
| MapView.StationWeight | src/components/MapView.tsx:77-80 | every station's weight is positive |
| MapView.TotalWeightPositive | src/components/MapView.tsx:82 | with positive weights the total is positive exactly when there are stations |
| MapView.WeightedSumBounds | src/components/MapView.tsx:81-82 | bounds on every AQI bound the weighted sum by the same multiples of the total weight |
| MapView.Interpolation | src/components/MapView.tsx:70-86 | null exactly when there are no stations |
| MapView.InterpolationBetween | src/components/MapView.tsx:70-86 | with stations, the interpolated AQI lies between any bounds on the station AQIs |
| MapView.InterpolationSingle | src/components/MapView.tsx:70-86 | a single station yields its own AQI |
| MapView.Located | src/components/MapView.tsx:77-78 | each station with its missing position made explicit as (0, 0) |
| MapView.MissingCoordinatesAtOrigin | src/components/MapView.tsx:77-78 | a station without coordinates weighs in exactly as one at (0, 0) |
| MapView.InterpolateAqi | src/components/MapView.tsx:70-86 | the accumulation loop returns exactly the interpolation |
| MapView.RouteIntervalForZoom | src/components/MapView.tsx:92-105 | the interval is positive |
| MapView.RouteIntervalShape | src/components/MapView.tsx:92-105 | non-increasing in zoom; selected is 0.6× and strictly denser; 200/120 m from zoom 16; 40000 m below zoom 9 |
| MapView.LabelSizeShape | src/components/MapView.tsx:108-113 | pills grow with zoom, height is twice the font size, a selected pill is larger, font size is in [7, 12] |
| MapView.GridConfigShape | src/components/MapView.tsx:280-290 | 6 to 8 points a side, never fewer with more zoom; the spread is positive and shrinks with zoom |
| MapView.ZoomGrid | src/components/MapView.tsx:280-295 | the grid at a zoom is the generator with that zoom's configuration: 36 to 64 points |
| MapView.PointLabelsOnePerPoint | src/components/MapView.tsx:246-251 | with stations every sample point gets exactly one label, keyed by its index, at that point, with the interpolated AQI |
| MapView.LabelsCount | src/components/MapView.tsx:236-252 | no stations, no labels; with stations each route contributes one label per sample point |
| MapView.RoutesLabelsNext | src/components/MapView.tsx:240-252 | one more route appends that route's labels |
| MapView.RoutePointLabels | src/components/MapView.tsx:246-251 | the `forEach` push loop returns exactly the point labels |
| MapView.ZoomAdaptiveLabels | src/components/MapView.tsx:236-255 | the nested loops return exactly the specified labels |
| HomePage.BestIndex | src/pages/HomePage.tsx:81 | the reduction ends on a valid position whose score is ≤ every score and < every later one |
| HomePage.BestIndexIsLastMinimum | src/pages/HomePage.tsx:81 | the reduction's choice is exactly the last minimum |
| HomePage.TiesGoToTheLater | src/pages/HomePage.tsx:81 | of two equally scored alternatives the earlier is never chosen |
| HomePage.BaseRoute | src/pages/HomePage.tsx:70-71 | none iff there are no routes; the selected route if present, else the first |
| HomePage.ScoredAlternatives | src/pages/HomePage.tsx:75-80 | one score per alternative |
| HomePage.ScoredAt | src/pages/HomePage.tsx:77-79 | one loop pass pushes the i-th scored alternative, with 999 when the AQI is unknown |
| HomePage.ScoreAlternatives | src/pages/HomePage.tsx:75-80 | the loop builds exactly the scored alternatives |
| HomePage.Scores | src/pages/HomePage.tsx:79 | one score per alternative |
| HomePage.SuggestionIsLeastPolluted | src/pages/HomePage.tsx:74-85 | no alternatives, no suggestion; otherwise the suggestion is the alternative at the last minimum score |
| HomePage.AverageAqi | src/pages/HomePage.tsx:90-93 | null exactly with no stations |
| HomePage.AverageAqiBetween | src/pages/HomePage.tsx:90-93 | the average lies between any bounds on the station AQIs |
| HomePage.AverageAqiSingle | src/pages/HomePage.tsx:90-93 | one station's average is its own AQI |
| HomePage.Home.constructor | src/pages/HomePage.tsx:20-29 | no selection, no suggestion, not loading, form closed |
| HomePage.Home.HandleRoutesCreated | src/pages/HomePage.tsx:58-67 | new routes are appended (none leaves the list unchanged); the form closes and onboarding is recorded |
| HomePage.Home.SuggestBestRoute | src/pages/HomePage.tsx:69-87 | no routes, nothing happens; otherwise the suggestion becomes the least polluted alternative (none when there are none) and loading ends |
| ScheduleForm.DaysListsEachDayOnce | src/components/ScheduleForm.tsx:8 | every weekday has exactly one button |
| ScheduleForm.Toggled | src/components/ScheduleForm.tsx:42 | the day is present afterwards iff it was absent; other days keep their membership; an absent day is appended after the unchanged old list; a present day is removed with every copy, the other days keeping their order and their number of copies |
| ScheduleForm.ToggleTwice | src/components/ScheduleForm.tsx:42 | toggling an absent day twice restores the list; a present day ends up once, at the end |
| ScheduleForm.Prefix | src/components/ScheduleForm.tsx:36-38 | `slice(0, n)` is a prefix of length ≤ n, the whole string when short enough |
| ScheduleForm.ChainRoutes | src/components/ScheduleForm.tsx:68-97 | fewer than two stops give no routes; otherwise one route per consecutive pair |
| ScheduleForm.ChainRoutesLeg | src/components/ScheduleForm.tsx:75-93 | route i goes from stop i to stop i+1 along the computed path, with its name and id; only route 0 is preferred; no last AQI; one slot per origin day with the origin's times |
| ScheduleForm.ChainRoutesConnect | src/components/ScheduleForm.tsx:75-88 | each route ends where the next begins |
| ScheduleForm.LegNameCases | src/components/ScheduleForm.tsx:86 | the origin's non-empty route name, else "from → to" |
| ScheduleForm.Form.constructor | src/components/ScheduleForm.tsx:16-24 | empty form, with times 08:00–09:00 |
| ScheduleForm.Form.SelectResult | src/components/ScheduleForm.tsx:35-39 | the selected place takes the first 50 characters of the name; the query takes the first 80 |
| ScheduleForm.Form.ToggleDay | src/components/ScheduleForm.tsx:41-43 | the chosen days become the toggled list; nothing else changes |
| ScheduleForm.Form.AddItem | src/components/ScheduleForm.tsx:45-62 | without a place or a day nothing changes; otherwise one stop is appended (an empty route name stored as none) and the inputs reset |
| ScheduleForm.Form.RemoveItem | src/components/ScheduleForm.tsx:64-66 | every stop with the id goes; the rest keep their order |
| ScheduleForm.Form.CreateRoutes | src/components/ScheduleForm.tsx:68-97 | the push loop returns exactly the chained routes |
| UseRoutes.MergeLaws | src/hooks/useRoutes.ts:30 | an empty patch changes nothing; a patch applied twice is applied once |
| UseRoutes.WithoutRoute | src/hooks/useRoutes.ts:38 | exactly the routes without the id remain, in order, each with all its copies |
| UseRoutes.WithoutRouteLaws | src/hooks/useRoutes.ts:38 | removing twice is removing once; removing an absent id changes nothing |
| UseRoutes.WithUpdate | src/hooks/useRoutes.ts:30 | same length; routes with the id are merged; the others are unchanged |
| UseRoutes.RouteStore.constructor | src/hooks/useRoutes.ts:6-7 | empty list, loading |
| UseRoutes.RouteStore.Loaded | src/hooks/useRoutes.ts:9-14 | the saved routes become the list and loading ends |
| UseRoutes.RouteStore.SetRoutes | src/hooks/useRoutes.ts:16-19 | the list is replaced by the given one |
| UseRoutes.RouteStore.AddRoute | src/hooks/useRoutes.ts:21-26 | the route is appended |
| UseRoutes.RouteStore.UpdateRoute | src/hooks/useRoutes.ts:28-34 | the list becomes its update by id |
| UseRoutes.RouteStore.RemoveRoute | src/hooks/useRoutes.ts:36-41 | the list loses every route with the id |
| UseSchedule.MergeLaws | src/hooks/useSchedule.ts:16 | an empty patch changes nothing; a patch applied twice is applied once |
| UseSchedule.WithoutItem | src/hooks/useSchedule.ts:12 | exactly the items without the id remain, in order, each with all its copies |
| UseSchedule.WithoutItemLaws | src/hooks/useSchedule.ts:12 | removing twice is removing once; removing an absent id changes nothing |
| UseSchedule.WithUpdate | src/hooks/useSchedule.ts:16 | same length; items with the id are merged; the others are unchanged |
| UseSchedule.ScheduleStore.constructor | src/hooks/useSchedule.ts:4-5 | the list starts as the given initial list |
| UseSchedule.ScheduleStore.SetItems | src/hooks/useSchedule.ts:5 | the list is replaced by the given one |
| UseSchedule.ScheduleStore.AddItem | src/hooks/useSchedule.ts:7-9 | the item is appended |
| UseSchedule.ScheduleStore.RemoveItem | src/hooks/useSchedule.ts:11-13 | the list loses every item with the id |
| UseSchedule.ScheduleStore.UpdateItem | src/hooks/useSchedule.ts:15-17 | the list becomes its update by id |
| UseSchedule.ScheduleStore.Clear | src/hooks/useSchedule.ts:19 | the list becomes empty |
| RouteCard.Abbrev | src/components/RouteCard.tsx:15 | a day's abbreviation has three characters |
| RouteCard.AbbrevValues | src/components/RouteCard.tsx:15 | monday→Mon, tuesday→Tue, … sunday→Sun |
| RouteCard.AbbrevInjective | src/components/RouteCard.tsx:15-16 | different days get different abbreviations |
| RouteCard.Abbrevs | src/components/RouteCard.tsx:15 | one abbreviation per slot, in order |
| RouteCard.ScheduleDaysDistinct | src/components/RouteCard.tsx:14-16 | `indexOf`-dedup is first-occurrence dedup: no repeats, in order, no more pills than slots |
| RouteCard.ScheduleDaysCover | src/components/RouteCard.tsx:14-16 | every scheduled day has a pill; an empty schedule has none, so no pill row is drawn (line 84) |
| RouteCard.BorderFollowsBadge | src/components/RouteCard.tsx:13 | a badge (line 80) exactly when there is a last AQI, with the border in that AQI's tier colour; otherwise `var(--border)` |
| Routing.StraightLineShape | src/lib/routing.ts:13-30 | the path is exactly [origin, destination] and reads back so; the duration is 120 s per km, non-negative, and 0 exactly for distance 0 |
| Routing.ToLatLng | src/lib/routing.ts:64 | one pair per GeoJSON position |
| Routing.ToGeo | src/lib/routing.ts:47-48 | one position per pair |
| Routing.SwapRoundTrip | src/lib/routing.ts:64 | the swap keeps count and order and is undone by the request-side swap (also lines 84 and 107) |
| Routing.RequestMatchesStraightLine | src/lib/routing.ts:47-48 | the endpoints a request sends, read back, are the straight-line path (also lines 76 and 100) |
| Routing.KmConversions | src/lib/routing.ts:87 | the ORS (line 67) and OSRM conversions agree; missing or zero gives 0; otherwise km·1000 is the length in metres |
| Routing.ComputeRouteCases | src/lib/routing.ts:32-93 | straight when asked or when the answering service fails; else the service's geometry swapped; ORS without a key behaves as OSRM |
| Routing.AlternativeRoutes | src/lib/routing.ts:95-115 | failure gives [computeRoute's result]; otherwise the first ≤ 3 routes, each converted |
| Routing.AlternativeRoutesShape | src/lib/routing.ts:103-113 | at most three alternatives; a route without geometry has no coordinates |
| Lists.FilterIsSubsequence | src/hooks/useRoutes.ts:38 | a filter keeps a subsequence of its input |
| Lists.FilterCounts | src/hooks/useRoutes.ts:38 | a filter keeps every copy of each kept element and no copy of the others |
| Lists.FilterIdempotent | src/hooks/useSchedule.ts:12 | filtering twice is filtering once |
| Lists.DedupByDistinct | src/lib/aqi.ts:243-251 | the seen-set walk keeps pairwise distinct keys |
| Lists.DedupByFirstOccurrences | src/lib/aqi.ts:243-251 | the seen-set walk keeps exactly the first occurrence of each key |
| Lists.PickIsSubsequence | src/lib/aqi.ts:212-215 | picking strictly increasing indices gives a subsequence |
| Lists.RoundedMeanBetween | src/lib/aqi.ts:252 | the rounded mean of a non-empty list lies between any bounds on it |
| Lists.RoundedMeanSingle | src/pages/HomePage.tsx:92 | the rounded mean of one value is that value |

## Left out

- **Network I/O.** `getNearestStations`, `getStationMeasurements` and
  `getStationsWithAQI`, the fetch branches of `computeRoute` and
  `computeAlternativeRoutes`, and geocoding are not part of this model. Their
  results are parameters: `readingsNear`, `alternatives`, `computeRoute`, and
  the decoded responses as `Option<seq<ResponseRoute>>`.
- **Request URLs.** OSRM URLs and ORS request bodies are not modelled, nor the
  decimal formatting of numbers inside them. Only the longitude-first order of
  the endpoints is (`Routing.RequestPositions`).
- **Transcendental maths.** The Haversine distance, `seededRandom`'s
  `Math.sin`, and the `Math.sin`/`Math.cos` of the demo stations are opaque
  parameters. Only "≥ 0" and "in [0, 1)" are assumed of them.
- **Floating point.** Numbers are exact reals, so IEEE rounding, NaN and
  Infinity arithmetic are not modelled.
- **The unused proximity weight.** The weight computed in `getAQIForRoute`
  (src/lib/aqi.ts:230-236) never affects the result and is not modelled.
- **Timers, notifications and persistence.** The AQI polling, the
  notifications, `localStorage` (the onboarding flag is a boolean field),
  `saveRoutes` after `setRoutes`, and the test setup are not modelled.
- **React scheduling.** Asynchronous ordering, stale closures and re-renders
  are not modelled. Each state update is modelled as happening at once.
  `suggestLoading` being set while the estimation runs is not observable here.
- **Rendering.** Leaflet icons, map events, animation, layout, and the other
  modals and panels are not modelled.
- **Label keys.** A label's key `${route.id}-${zoom}-${i}` is kept as its three
  parts (`MapView.LabelKey`), not as a formatted string.
- **Aqi.SamplePointsAlongRoute: requires n ≥ 2.** With n = 1 the source divides
  by zero and indexes with NaN. Its only caller passes 5.
- **Aqi.GenerateAqiGrid: requires gridSize ≠ 1.** With gridSize = 1 the source
  divides by zero (half = 0) and yields NaN coordinates. The zoom table only
  passes 6, 7 or 8 (`MapView.GridConfigShape`).
- **Aqi.GridPoint, Aqi.GridRow, Aqi.GridRows: require gridSize ≠ 1**, for the
  same reason.
- **AqiLegend.RangeLabels states only its length.** The text of each row is
  stated by the six per-row lemmas (`AqiLegend.GoodRowLabel` …
  `AqiLegend.HazardousRowLabel`).
- ScheduleForm.Prefix, ScheduleForm.Form.SelectResult: strings are sequences of
  Unicode scalar values, but JavaScript's `slice(0, 50)` and `slice(0, 80)`
  count UTF-16 code units. For a display name with characters outside the
  Basic Multilingual Plane (emoji, some CJK), the cut falls at a different
  place, and JavaScript can leave a lone surrogate that the model cannot
  represent. Clearing the geocoding results (`setAddressResults([])`,
  src/components/ScheduleForm.tsx:37) is not modelled, because geocoding is
  left out.
- **Aqi.Pm25ToAqi is not called by the rest of the model.** Its only callers
  are the measurement fetchers, which are left out above. Station AQIs enter
  the model already converted.

## Findings

| source | as written | input that shows it | evidently intended | confidence | as-written member | corrected member |
|---|---|---|---|---|---|---|
| src/lib/aqi.ts:26-41 | A concentration strictly between two bands matches no band and falls through to `return pm25 > 500.4 ? 500 : 0`. It therefore reports AQI 0 (Good). | `pm25ToAQI(12.05)` is 0, while `pm25ToAQI(12.0)` is 50. The same happens in 35.4–35.5, 55.4–55.5, 150.4–150.5 and 250.4–250.5. | Truncate the concentration to one decimal place before the band lookup, as the EPA procedure does. The conversion is then non-decreasing, and 12.05 reports 50. | high; not executed | Aqi.Pm25GapBreaksMonotonicity | Aqi.Pm25ToAqiTruncatedMonotone |
