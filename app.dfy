/** The root component of the transit map as an object whose fields its
    handlers update in place.  Each handler is proved to move the state
    exactly as the corresponding transition of `Controller` does, so every
    property proved there holds of the object. */
module Component {
  import opened Selection
  import opened Controller

  /** The `routes` record as the component holds it: the path list is an
      array that reselection updates in place. */
  datatype RouteState = RouteState(
    query: Option<Query>,
    isFetching: bool,
    paths: Option<array<Path>>,
    isLastQuerySuccess: Option<bool>,
    selectedRouteIndex: Option<int>)

  class App {
    /** The query builder, against the routing endpoint or the page. */
    const createQuery: (Target, Search) -> Query

    /** Whether the startup configuration has arrived. */
    var info: bool
    var from: Place
    var to: Place
    var settings: Settings
    var routes: RouteState
    /** The query string shown in the address bar. */
    var url: Query
    /** The routing requests sent so far, oldest first. */
    var issued: seq<Query>

    function PathArrays(): set<object>
      reads this
    {
      if routes.paths.Some? then {routes.paths.value} else {}
    }

    /** The state as a value. */
    ghost function Snapshot(): View
      reads this, PathArrays()
    {
      var paths := if routes.paths.Some? then Some(routes.paths.value[..]) else None;
      View(info, Search(from, to, settings),
           Routes(routes.query, routes.isFetching, paths, routes.isLastQuerySuccess, routes.selectedRouteIndex),
           url, issued)
    }

    /** Starts from the defaults, overridden by whatever `parseQuery` reads
        from the page's address `location`. */
    constructor (createQuery: (Target, Search) -> Query, parseQuery: (Search, Query) -> Search,
                 location: Query, now: int)
      ensures this.createQuery == createQuery
      ensures Snapshot() == Initial(parseQuery(DefaultSearch(now), location), location)
    {
      var search := parseQuery(DefaultSearch(now), location);
      this.createQuery := createQuery;
      info := false;
      from, to, settings := search.from, search.to, search.settings;
      routes := RouteState(None, false, None, None, None);
      url := location;
      issued := [];
    }

    /** The startup configuration arrived. */
    method ReceiveInfo()
      modifies this
      ensures Snapshot() == old(Snapshot()).(info := true)
    {
      info := true;
    }

    /** The search form replaced the search parameters. */
    method ChangeSearch(search: Search)
      modifies this
      ensures Snapshot() == old(Snapshot()).(search := search)
    {
      from, to, settings := search.from, search.to, search.settings;
    }

    /** Requests routes for the current search unless the configuration is
        missing, an endpoint is unset, or that query is already recorded. */
    method SubmitRoute()
      modifies this
      ensures Snapshot() == SubmitRouteNext(old(Snapshot()), createQuery)
    {
      if info {
        if !from.Unset? && !to.Unset? {
          var search := Search(from, to, settings);
          var query := createQuery(RouteEndpoint, search);
          var appQuery := createQuery(AppPage, search);
          if routes.query != Some(query) {
            routes := RouteState(Some(query), true, None, None, None);
            issued := issued + [query];
            url := appQuery;
          }
        }
      }
    }

    /** A submission from the map: looks up the text endpoints, origin first,
        giving up at the first failed lookup; otherwise stores what was found
        and submits the route.  Returns the addresses looked up. */
    method OnSubmit(fromIn: Place, toIn: Place, fromLookup: Lookup, toLookup: Lookup)
      returns (lookups: seq<string>)
      modifies this
      ensures (Snapshot(), lookups) == SubmitNext(old(Snapshot()), createQuery, fromIn, toIn, fromLookup, toLookup)
    {
      lookups := [];
      var newFrom: Option<Coord> := None;
      var newTo: Option<Coord> := None;
      if NeedsGeocode(fromIn) {
        lookups := [fromIn.text];
        if !fromLookup.Found? {
          return;
        }
        newFrom := Some(fromLookup.coords);
      }
      if NeedsGeocode(toIn) {
        lookups := lookups + [toIn.text];
        if !toLookup.Found? {
          return;
        }
        newTo := Some(toLookup.coords);
      }
      if newFrom.Some? {
        from := Coordinates(newFrom.value);
      }
      if newTo.Some? {
        to := Coordinates(newTo.value);
      }
      ghost var resolution := Resolve(fromIn, toIn, fromLookup, toLookup);
      assert newFrom == resolution.newFrom && newTo == resolution.newTo;
      assert lookups == resolution.lookups && !resolution.aborted;
      ghost var search := old(Snapshot()).search.(from := Replace(old(from), newFrom), to := Replace(old(to), newTo));
      assert Snapshot() == old(Snapshot()).(search := search);
      SubmitRoute();
    }

    /** The response to `query` arrived: dropped unless the current search
        still derives `query`; otherwise a fresh path list with its first
        feasible path selected replaces the routes record. */
    method FetchSucceeded(query: Query, received: seq<Path>)
      modifies this
      ensures Snapshot() == Succeeded(old(Snapshot()), createQuery, query, received)
      ensures routes.paths != old(routes.paths) ==> routes.paths.Some? && fresh(routes.paths.value)
    {
      if createQuery(RouteEndpoint, Search(from, to, settings)) != query {
        return;
      }
      var paths := new Path[|received|](j requires 0 <= j < |received| => received[j]);
      assert paths[..] == received;
      var selected := SelectPathOnReceive(paths);
      routes := RouteState(Some(query), false, Some(paths), Some(true), Some(selected));
    }

    /** The request for `query` failed: the routes record is replaced
        whatever the current search is. */
    method FetchFailed(query: Query)
      modifies this
      ensures Snapshot() == Failed(old(Snapshot()), query)
    {
      routes := RouteState(Some(query), false, None, Some(false), None);
    }

    /** The user picked itinerary `k`: the flag moves from the recorded index
        (if non-negative) to `k`, in place, and `k` becomes the recorded index. */
    method SelectIndex(k: int)
      requires routes.paths.Some? && 0 <= k < routes.paths.value.Length
      requires routes.selectedRouteIndex.Some? ==> routes.selectedRouteIndex.value < routes.paths.value.Length
      modifies this, routes.paths.value
      ensures Snapshot() == Reselected(old(Snapshot()), k)
    {
      var paths := routes.paths.value;
      if routes.selectedRouteIndex.Some? && routes.selectedRouteIndex.value >= 0 {
        var prev := routes.selectedRouteIndex.value;
        paths[prev] := paths[prev].(isSelected := false);
      }
      paths[k] := paths[k].(isSelected := true);
      routes := routes.(selectedRouteIndex := Some(k));
    }
  }
}
