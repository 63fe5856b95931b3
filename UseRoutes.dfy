/** The `useRoutes` hook: the saved route list and its loading flag, with the
    list operations the pages call. Every operation replaces the whole list. */
module UseRoutes {
  import opened Lists
  import opened Types

  /** A `Partial<Route>`: a field set to `Some(v)` is overwritten with `v`. */
  datatype RoutePatch = RoutePatch(
    id: Option<string>,
    name: Option<string>,
    origin: Option<Location>,
    destination: Option<Location>,
    polyline: Option<Polyline>,
    schedule: Option<seq<ScheduleSlot>>,
    lastAQI: Option<Option<int>>,
    preferred: Option<Option<bool>>)

  const NoChange: RoutePatch := RoutePatch(None, None, None, None, None, None, None, None)

  /** `{ ...r, ...updates }`. */
  function Merge(r: Route, u: RoutePatch): Route {
    Route(Override(u.id, r.id), Override(u.name, r.name), Override(u.origin, r.origin), Override(u.destination, r.destination),
          Override(u.polyline, r.polyline), Override(u.schedule, r.schedule), Override(u.lastAQI, r.lastAQI),
          Override(u.preferred, r.preferred))
  }

  /** An empty patch changes nothing, and applying a patch twice is applying it once. */
  lemma MergeLaws(r: Route, u: RoutePatch)
    ensures Merge(r, NoChange) == r
    ensures Merge(Merge(r, u), u) == Merge(r, u)
  {
  }

  /** `routes.filter((r) => r.id !== id)`. */
  function WithoutRoute(routes: seq<Route>, id: string): (r: seq<Route>)
    ensures forall x :: x in r <==> x in routes && x.id != id
    ensures IsSubsequence(r, routes)
    ensures forall x :: multiset(r)[x] == if x.id != id then multiset(routes)[x] else 0
  {
    FilterIsSubsequence(routes, (x: Route) => x.id != id);
    FilterCounts(routes, (x: Route) => x.id != id);
    Filter(routes, (x: Route) => x.id != id)
  }

  /** Removing an id twice is removing it once; removing an absent id changes nothing. */
  lemma WithoutRouteLaws(routes: seq<Route>, id: string)
    ensures WithoutRoute(WithoutRoute(routes, id), id) == WithoutRoute(routes, id)
    ensures (forall i :: 0 <= i < |routes| ==> routes[i].id != id) ==> WithoutRoute(routes, id) == routes
  {
    FilterIdempotent(routes, (x: Route) => x.id != id);
    if forall i :: 0 <= i < |routes| ==> routes[i].id != id {
      FilterKeepsAll(routes, (x: Route) => x.id != id);
    }
  }

  /** `routes.map((r) => (r.id === id ? { ...r, ...updates } : r))`. */
  function WithUpdate(routes: seq<Route>, id: string, updates: RoutePatch): (r: seq<Route>)
    ensures |r| == |routes|
    ensures forall i :: 0 <= i < |routes| && routes[i].id != id ==> r[i] == routes[i]
    ensures forall i :: 0 <= i < |routes| && routes[i].id == id ==> r[i] == Merge(routes[i], updates)
  {
    UpdateWhere(routes, (x: Route) => x.id == id, (x: Route) => Merge(x, updates))
  }

  class RouteStore {
    var routes: seq<Route>
    var loading: bool

    /** Before the saved routes arrive the list is empty and `loading` is set. */
    constructor ()
      ensures routes == [] && loading
    {
      routes := [];
      loading := true;
    }

    /** The mount effect once the saved routes have been read: the list becomes
        them and loading ends. */
    method Loaded(saved: seq<Route>)
      modifies this
      ensures routes == saved && !loading
    {
      routes := saved;
      loading := false;
    }

    /** `persist` (exported as `setRoutes`): the list becomes `next`. */
    method SetRoutes(next: seq<Route>)
      modifies this
      ensures routes == next && loading == old(loading)
    {
      routes := next;
    }

    /** `addRoute`: the route goes at the end. */
    method AddRoute(route: Route)
      modifies this
      ensures routes == old(routes) + [route] && loading == old(loading)
    {
      SetRoutes(routes + [route]);
    }

    /** `updateRoute`: only routes with the id are merged with the updates. */
    method UpdateRoute(id: string, updates: RoutePatch)
      modifies this
      ensures routes == WithUpdate(old(routes), id, updates) && loading == old(loading)
    {
      SetRoutes(WithUpdate(routes, id, updates));
    }

    /** `removeRoute`: every route with the id goes, the rest keep their order. */
    method RemoveRoute(id: string)
      modifies this
      ensures routes == WithoutRoute(old(routes), id) && loading == old(loading)
    {
      SetRoutes(WithoutRoute(routes, id));
    }
  }
}
