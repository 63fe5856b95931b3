/** The application's records (routes, schedule items, locations), the coordinate
    pair used for every polyline vertex, and the two opaque numeric domains the
    model needs: non-negative distances and values in [0, 1). */
module Types {

  datatype Option<T> = None | Some(value: T)

  /** The value of a field after a spread of a partial record: the given value when
      there is one, else the current one. */
  function Override<T>(o: Option<T>, current: T): T {
    match o
    case Some(v) => v
    case None => current
  }

  /** A `[lat, lng]` pair, in degrees. */
  datatype Pos = Pos(lat: real, lng: real)

  datatype Location = Location(lat: real, lng: real, labelText: string)

  datatype Day = Monday | Tuesday | Wednesday | Thursday | Friday | Saturday | Sunday

  /** The string each day is stored as. */
  function DayName(d: Day): (s: string)
    ensures |s| >= 6
  {
    match d
    case Monday => "monday"
    case Tuesday => "tuesday"
    case Wednesday => "wednesday"
    case Thursday => "thursday"
    case Friday => "friday"
    case Saturday => "saturday"
    case Sunday => "sunday"
  }

  datatype ScheduleSlot = ScheduleSlot(day: Day, start: string, end: string)

  /** One entry of a stored coordinate array. The declared type is a pair, but the
      readers of the array still check at run time whether an entry is an array. */
  datatype PolyEntry = Pair(pos: Pos) | NotPair

  /** `string | [number, number][]`: an encoded polyline or an array of pairs. */
  datatype Polyline = Encoded(text: string) | Points(entries: seq<PolyEntry>)

  /** The coordinate array a routing result is stored as. */
  function PolylineOf(coords: seq<Pos>): (p: Polyline)
    ensures p.Points? && |p.entries| == |coords|
    ensures forall i :: 0 <= i < |coords| ==> p.entries[i] == Pair(coords[i])
  {
    Points(seq(|coords|, i requires 0 <= i < |coords| => Pair(coords[i])))
  }

  datatype Route = Route(
    id: string,
    name: string,
    origin: Location,
    destination: Location,
    polyline: Polyline,
    schedule: seq<ScheduleSlot>,
    lastAQI: Option<int>,
    preferred: Option<bool>)

  datatype ScheduleItem = ScheduleItem(
    id: string,
    name: string,
    location: Location,
    days: seq<Day>,
    startTime: string,
    endTime: string,
    routeName: Option<string>)

  /** A great-circle distance: never negative. */
  type Meters = x: real | 0.0 <= x

  /** A pseudo-random draw in [0, 1). */
  type Unit = x: real | 0.0 <= x < 1.0
}
