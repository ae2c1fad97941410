/** The request lifecycle of the transit map's root component, as pure
    transitions over a snapshot of its state.

    Asynchrony is cut into discrete events applied one at a time to the
    current state: the startup configuration arriving, the search form
    changing, a submission from the map (with the outcomes of its address
    lookups), a routing response arriving or failing, and the user picking
    an itinerary.  `CreateQuery` is not visible; it is passed in as `cq`, a
    deterministic function of the target and the search parameters. */
module Controller {
  import opened Selection

  datatype Option<T> = None | Some(value: T)

  datatype Coord = Coord(lat: real, lon: real)

  /** An endpoint: not set, free text awaiting lookup, or coordinates. */
  datatype Place = Unset | Address(text: string) | Coordinates(at: Coord)

  datatype TimeOption = Departure | Arrival

  /** The search parameters other than the two endpoints. */
  datatype Settings = Settings(
    departureDateTime: int,
    accessProfile: string,
    betaAccessTime: real,
    egressProfile: string,
    rangeQuery: bool,
    betaEgressTime: real,
    rangeQueryDuration: string,
    limitStreetTime: string,
    ignoreTransfers: bool,
    timeOption: TimeOption)

  datatype Search = Search(from: Place, to: Place, settings: Settings)

  /** The base a query is built against: the routing endpoint or the page itself. */
  datatype Target = RouteEndpoint | AppPage

  type Query = string

  /** The outcome of one address lookup. */
  datatype Lookup = Found(coords: Coord) | NotFound | ServiceError

  /** The component's `routes` record; absent keys are `None`. */
  datatype Routes = Routes(
    query: Option<Query>,
    isFetching: bool,
    paths: Option<seq<Path>>,
    isLastQuerySuccess: Option<bool>,
    selectedRouteIndex: Option<int>)

  /** Everything the component holds, plus the visible URL and the routing
      requests issued so far. */
  datatype View = View(info: bool, search: Search, routes: Routes, url: Query, issued: seq<Query>)

  /** The search defaults the component starts from; `now` is the clock reading. */
  function DefaultSearch(now: int): (s: Search)
    ensures s.from == Unset && s.to == Unset
    ensures s.settings.accessProfile == "foot" && s.settings.egressProfile == "foot"
    ensures s.settings.betaAccessTime == 1.0 && s.settings.betaEgressTime == 1.0
    ensures !s.settings.rangeQuery && !s.settings.ignoreTransfers
    ensures s.settings.rangeQueryDuration == "PT120M" && s.settings.limitStreetTime == "PT30M"
    ensures s.settings.timeOption == Departure && s.settings.departureDateTime == now
  {
    Search(Unset, Unset, Settings(now, "foot", 1.0, "foot", false, 1.0, "PT120M", "PT30M", false, Departure))
  }

  function Initial(search: Search, url: Query): View
  {
    View(false, search, Routes(None, false, None, None, None), url, [])
  }

  function Fetching(query: Query): Routes
  {
    Routes(Some(query), true, None, None, None)
  }

  /** The configuration has arrived and both endpoints are set. */
  predicate CanSubmit(v: View)
  {
    v.info && !v.search.from.Unset? && !v.search.to.Unset?
  }

  /** Route submission: issue a request for the derived query unless the
      component is not ready or that query is already the recorded one. */
  function SubmitRouteNext(v: View, cq: (Target, Search) -> Query): (r: View)
    ensures r.search == v.search && r.info == v.info
    ensures r == v <==> !CanSubmit(v) || v.routes.query == Some(cq(RouteEndpoint, v.search))
    ensures r != v ==>
              && r.routes == Fetching(cq(RouteEndpoint, v.search))
              && r.issued == v.issued + [cq(RouteEndpoint, v.search)]
              && r.url == cq(AppPage, v.search)
  {
    if !CanSubmit(v) then v
    else
      var query := cq(RouteEndpoint, v.search);
      var appQuery := cq(AppPage, v.search);
      if v.routes.query == Some(query) then v
      else v.(routes := Fetching(query), issued := v.issued + [query], url := appQuery)
  }

  /** A routing response for `query` arrives with the paths `received`. */
  function Succeeded(v: View, cq: (Target, Search) -> Query, query: Query, received: seq<Path>): (r: View)
    ensures r.search == v.search && r.info == v.info && r.url == v.url && r.issued == v.issued
    ensures cq(RouteEndpoint, v.search) != query ==> r == v
    ensures cq(RouteEndpoint, v.search) == query ==>
              && r.routes.query == Some(cq(RouteEndpoint, r.search))
              && !r.routes.isFetching && r.routes.isLastQuerySuccess == Some(true)
              && r.routes.paths == Some(MarkFirstPossible(received))
              && r.routes.selectedRouteIndex == Some(FirstPossible(received))
  {
    if cq(RouteEndpoint, v.search) != query then v
    else
      var paths := MarkFirstPossible(received);
      var selected := FirstPossible(received);
      v.(routes := Routes(Some(query), false, Some(paths), Some(true), Some(selected)))
  }

  /** A routing request for `query` failed.  No staleness check applies. */
  function Failed(v: View, query: Query): (r: View)
    ensures r.search == v.search && r.info == v.info && r.url == v.url && r.issued == v.issued
    ensures r.routes.query == Some(query) && !r.routes.isFetching && r.routes.isLastQuerySuccess == Some(false)
    ensures r.routes.paths.None? && r.routes.selectedRouteIndex.None?
  {
    v.(routes := Routes(Some(query), false, None, Some(false), None))
  }

  /** The index whose flag a reselection clears; an absent index clears none. */
  function PreviousIndex(routes: Routes): int
  {
    if routes.selectedRouteIndex.Some? then routes.selectedRouteIndex.value else -1
  }

  /** A reselection to `k` does not fault: there is a path list, `k` is an
      index of it, and so is the recorded index when it is non-negative. */
  predicate SelectEnabled(v: View, k: int)
  {
    && v.routes.paths.Some?
    && 0 <= k < |v.routes.paths.value|
    && PreviousIndex(v.routes) < |v.routes.paths.value|
  }

  /** The user picks itinerary `k`. */
  function Reselected(v: View, k: int): (r: View)
    requires SelectEnabled(v, k)
    ensures r.search == v.search && r.info == v.info && r.url == v.url && r.issued == v.issued
    ensures r.routes.query == v.routes.query && r.routes.isFetching == v.routes.isFetching
    ensures r.routes.isLastQuerySuccess == v.routes.isLastQuerySuccess
    ensures r.routes.selectedRouteIndex == Some(k)
    ensures r.routes.paths.Some? && |r.routes.paths.value| == |v.routes.paths.value|
    ensures r.routes.paths.value[k].isSelected
    ensures r.routes.paths.value == Reselect(v.routes.paths.value, PreviousIndex(v.routes), k)
    ensures forall j :: 0 <= j < |v.routes.paths.value| ==>
              r.routes.paths.value[j].isPossible == v.routes.paths.value[j].isPossible
  {
    var paths := v.routes.paths.value;
    var prev := PreviousIndex(v.routes);
    v.(routes := v.routes.(paths := Some(Reselect(paths, prev, k)), selectedRouteIndex := Some(k)))
  }

  /** Only non-empty text endpoints are looked up. */
  predicate NeedsGeocode(p: Place)
  {
    p.Address? && p.text != ""
  }

  /** The addresses an endpoint contributes to the lookups. */
  function Addresses(p: Place): (r: seq<string>)
    ensures |r| <= 1
    ensures r != [] <==> NeedsGeocode(p)
    ensures NeedsGeocode(p) ==> r == [p.text]
  {
    if NeedsGeocode(p) then [p.text] else []
  }

  /** The endpoint value a successful submission stores: the looked-up
      coordinates when the endpoint was looked up, nothing otherwise. */
  function LookedUp(p: Place, lookup: Lookup): Option<Coord>
    requires NeedsGeocode(p) ==> lookup.Found?
  {
    if NeedsGeocode(p) then Some(lookup.coords) else None
  }

  /** The lookups a submission performs, and what it learnt from them. */
  datatype Resolution = Resolution(lookups: seq<string>, aborted: bool, newFrom: Option<Coord>, newTo: Option<Coord>)

  /** Origin first, then destination; the first failed lookup stops everything. */
  function Resolve(fromIn: Place, toIn: Place, fromLookup: Lookup, toLookup: Lookup): (r: Resolution)
    ensures r.aborted <==> (NeedsGeocode(fromIn) && !fromLookup.Found?) || (NeedsGeocode(toIn) && !toLookup.Found?)
    ensures NeedsGeocode(fromIn) && !fromLookup.Found? ==> r.lookups == [fromIn.text]
    ensures !(NeedsGeocode(fromIn) && !fromLookup.Found?) ==> r.lookups == Addresses(fromIn) + Addresses(toIn)
    ensures !r.aborted ==> r.newFrom.Some? == NeedsGeocode(fromIn) && r.newTo.Some? == NeedsGeocode(toIn)
    ensures !r.aborted && r.newFrom.Some? ==> fromLookup == Found(r.newFrom.value)
    ensures !r.aborted && r.newTo.Some? ==> toLookup == Found(r.newTo.value)
  {
    if NeedsGeocode(fromIn) && !fromLookup.Found? then
      Resolution([fromIn.text], true, None, None)
    else if NeedsGeocode(toIn) && !toLookup.Found? then
      Resolution(Addresses(fromIn) + [toIn.text], true, None, None)
    else
      Resolution(Addresses(fromIn) + Addresses(toIn), false, LookedUp(fromIn, fromLookup), LookedUp(toIn, toLookup))
  }

  function Replace(p: Place, c: Option<Coord>): Place
  {
    if c.Some? then Coordinates(c.value) else p
  }

  /** A submission from the map: the endpoints of the event that are text
      are looked up; on success they replace the stored endpoints and a
      route submission follows.  Yields the new state and the lookups made. */
  function SubmitNext(v: View, cq: (Target, Search) -> Query, fromIn: Place, toIn: Place,
                      fromLookup: Lookup, toLookup: Lookup): (r: (View, seq<string>))
    ensures r.1 == Resolve(fromIn, toIn, fromLookup, toLookup).lookups
    ensures Resolve(fromIn, toIn, fromLookup, toLookup).aborted ==> r.0 == v
    ensures !Resolve(fromIn, toIn, fromLookup, toLookup).aborted ==>
              && r.0.search.settings == v.search.settings
              && r.0.search.from == (if NeedsGeocode(fromIn) then Coordinates(fromLookup.coords) else v.search.from)
              && r.0.search.to == (if NeedsGeocode(toIn) then Coordinates(toLookup.coords) else v.search.to)
              && r.0 == SubmitRouteNext(v.(search := r.0.search), cq)
  {
    var res := Resolve(fromIn, toIn, fromLookup, toLookup);
    if res.aborted then (v, res.lookups)
    else
      var search := v.search.(from := Replace(v.search.from, res.newFrom), to := Replace(v.search.to, res.newTo));
      (SubmitRouteNext(v.(search := search), cq), res.lookups)
  }

  /** The events the component reacts to. */
  datatype Event =
    | InfoLoaded
    | SearchChanged(search: Search)
    | Submitted(fromIn: Place, toIn: Place, fromLookup: Lookup, toLookup: Lookup)
    | FetchSucceeded(query: Query, received: seq<Path>)
    | FetchFailed(query: Query)
    | IndexSelected(index: int)

  /** One event applied to the current state; `None` where the component
      would fault (a reselection outside the path list). */
  function Step(v: View, cq: (Target, Search) -> Query, e: Event): Option<View>
  {
    match e
    case InfoLoaded => Some(v.(info := true))
    case SearchChanged(s) => Some(v.(search := s))
    case Submitted(fromIn, toIn, fromLookup, toLookup) => Some(SubmitNext(v, cq, fromIn, toIn, fromLookup, toLookup).0)
    case FetchSucceeded(query, received) => Some(Succeeded(v, cq, query, received))
    case FetchFailed(query) => Some(Failed(v, query))
    case IndexSelected(k) => if SelectEnabled(v, k) then Some(Reselected(v, k)) else None
  }

  /** A sequence of events applied in order; `None` once one faults. */
  function Run(v: View, cq: (Target, Search) -> Query, events: seq<Event>): Option<View>
    decreases |events|
  {
    if events == [] then Some(v)
    else
      match Step(v, cq, events[0])
      case None => None
      case Some(w) => Run(w, cq, events[1..])
  }

  /** Responses carry paths that are not yet selected. */
  ghost predicate Unselected(e: Event)
  {
    e.FetchSucceeded? ==> NoneSelected(e.received)
  }

  /** While a request is in flight there is no path list; a path list comes
      with a recorded index that is -1 or one of its indices, and no path
      but the one at that index is selected. */
  ghost predicate Inv(v: View)
  {
    && (v.routes.isFetching ==> v.routes.paths.None?)
    && (v.routes.paths.Some? ==>
          && v.routes.selectedRouteIndex.Some?
          && -1 <= v.routes.selectedRouteIndex.value < |v.routes.paths.value|
          && SelectedOnlyAt(v.routes.paths.value, v.routes.selectedRouteIndex.value))
  }

  lemma InitialInv(search: Search, url: Query)
    ensures Inv(Initial(search, url))
  {
  }

  /** Under the invariant at most one itinerary is selected, and it is the
      recorded one. */
  lemma InvAtMostOneSelected(v: View)
    requires Inv(v) && v.routes.paths.Some?
    ensures SelectedCount(v.routes.paths.value) <= 1
    ensures SelectedCount(v.routes.paths.value) == 1 <==>
              v.routes.selectedRouteIndex.value >= 0 && v.routes.paths.value[v.routes.selectedRouteIndex.value].isSelected
  {
    SelectedOnlyAtCount(v.routes.paths.value, v.routes.selectedRouteIndex.value);
  }

  /** Every event keeps the invariant, and requests are only ever appended. */
  lemma StepInv(v: View, cq: (Target, Search) -> Query, e: Event)
    requires Inv(v) && Unselected(e) && Step(v, cq, e).Some?
    ensures Inv(Step(v, cq, e).value)
    ensures v.issued <= Step(v, cq, e).value.issued
  {
    match e
    case FetchSucceeded(query, received) =>
      if cq(RouteEndpoint, v.search) == query {
        MarkFirstPossibleSelects(received);
      }
    case IndexSelected(k) =>
      ReselectSelects(v.routes.paths.value, PreviousIndex(v.routes), k);
    case _ =>
  }

  lemma {:induction false} RunInv(v: View, cq: (Target, Search) -> Query, events: seq<Event>)
    requires Inv(v)
    requires forall i :: 0 <= i < |events| ==> Unselected(events[i])
    requires Run(v, cq, events).Some?
    ensures Inv(Run(v, cq, events).value)
    ensures v.issued <= Run(v, cq, events).value.issued
    decreases |events|
  {
    if events != [] {
      StepInv(v, cq, events[0]);
      var w := Step(v, cq, events[0]).value;
      assert forall i :: 0 <= i < |events[1..]| ==> Unselected(events[1..][i]) by {
        forall i | 0 <= i < |events[1..]| ensures Unselected(events[1..][i]) {
          assert events[1..][i] == events[i + 1];
        }
      }
      RunInv(w, cq, events[1..]);
    }
  }

  /** Submitting twice with nothing in between issues at most one request. */
  lemma SubmitRouteIdempotent(v: View, cq: (Target, Search) -> Query)
    ensures SubmitRouteNext(SubmitRouteNext(v, cq), cq) == SubmitRouteNext(v, cq)
    ensures |SubmitRouteNext(SubmitRouteNext(v, cq), cq).issued| <= |v.issued| + 1
  {
  }

  /** A response for a query other than the one the current search derives is
      discarded; one that is applied always belongs to the current search. */
  lemma SucceededIsCurrent(v: View, cq: (Target, Search) -> Query, query: Query, received: seq<Path>)
    ensures Succeeded(v, cq, query, received) != v ==>
              Succeeded(v, cq, query, received).routes.query == Some(cq(RouteEndpoint, v.search))
    ensures query != cq(RouteEndpoint, v.search) ==> Succeeded(v, cq, query, received) == v
  {
  }

  /** A failure that arrives after the current search's result has been
      stored replaces that result, and the next submission with the search
      unchanged requests the same route again. */
  lemma StaleFailureForcesRefetch(v: View, cq: (Target, Search) -> Query, stale: Query)
    requires CanSubmit(v)
    requires v.routes.query == Some(cq(RouteEndpoint, v.search))
    requires stale != cq(RouteEndpoint, v.search)
    ensures SubmitRouteNext(v, cq) == v
    ensures Failed(v, stale).routes.paths.None?
    ensures SubmitRouteNext(Failed(v, stale), cq).issued == v.issued + [cq(RouteEndpoint, v.search)]
  {
  }

  /** A failure of the current query is not retried by resubmitting with the
      search unchanged: the failed query is the recorded one. */
  lemma FailedQueryNotRetried(v: View, cq: (Target, Search) -> Query)
    ensures SubmitRouteNext(Failed(v, cq(RouteEndpoint, v.search)), cq) == Failed(v, cq(RouteEndpoint, v.search))
  {
  }

  /** A failed lookup of the origin stops the submission: the destination is
      not looked up and the state is unchanged. */
  lemma OriginLookupFailureAborts(v: View, cq: (Target, Search) -> Query, fromIn: Place, toIn: Place,
                                  fromLookup: Lookup, toLookup: Lookup)
    requires NeedsGeocode(fromIn) && !fromLookup.Found?
    ensures SubmitNext(v, cq, fromIn, toIn, fromLookup, toLookup) == (v, [fromIn.text])
  {
  }

  /** Origin looked up, destination not set: one lookup and no request. */
  lemma MissingDestinationScenario(v: View, cq: (Target, Search) -> Query, address: string, c: Coord)
    requires address != "" && v.search.to == Unset
    ensures SubmitNext(v, cq, Address(address), Unset, Found(c), NotFound).1 == [address]
    ensures SubmitNext(v, cq, Address(address), Unset, Found(c), NotFound).0 ==
              v.(search := v.search.(from := Coordinates(c)))
  {
  }

  /** A request for Q1 is in flight when the search changes so that it derives
      Q2; Q2 is requested, the late response for Q1 is dropped, and the
      response for Q2 is stored with the first feasible path selected. */
  lemma SupersededResponseDiscarded(v: View, cq: (Target, Search) -> Query, s2: Search,
                                    r1: seq<Path>, r2: seq<Path>)
    requires CanSubmit(v)
    requires v.routes.query != Some(cq(RouteEndpoint, v.search))
    requires !s2.from.Unset? && !s2.to.Unset?
    requires cq(RouteEndpoint, s2) != cq(RouteEndpoint, v.search)
    ensures var q1, q2 := cq(RouteEndpoint, v.search), cq(RouteEndpoint, s2);
            var resubmit := Submitted(Unset, Unset, NotFound, NotFound);
            var events := [resubmit, SearchChanged(s2), resubmit, FetchSucceeded(q1, r1), FetchSucceeded(q2, r2)];
            && Run(v, cq, events).Some?
            && Run(v, cq, events).value.issued == v.issued + [q1, q2]
            && Run(v, cq, events).value.url == cq(AppPage, s2)
            && Run(v, cq, events).value.routes
               == Routes(Some(q2), false, Some(MarkFirstPossible(r2)), Some(true), Some(FirstPossible(r2)))
  {
    var q1, q2 := cq(RouteEndpoint, v.search), cq(RouteEndpoint, s2);
    var resubmit := Submitted(Unset, Unset, NotFound, NotFound);
    var v1 := SubmitRouteNext(v, cq);
    assert Step(v, cq, resubmit) == Some(v1);
    var v2 := v1.(search := s2);
    var v3 := SubmitRouteNext(v2, cq);
    assert Step(v2, cq, resubmit) == Some(v3);
    assert v3.issued == v.issued + [q1, q2];
    assert Step(v3, cq, FetchSucceeded(q1, r1)) == Some(v3);
    var v5 := Succeeded(v3, cq, q2, r2);
    assert Step(v3, cq, FetchSucceeded(q2, r2)) == Some(v5);
    var events := [resubmit, SearchChanged(s2), resubmit, FetchSucceeded(q1, r1), FetchSucceeded(q2, r2)];
    assert Run(v5, cq, []) == Some(v5);
    assert Run(v3, cq, [FetchSucceeded(q2, r2)]) == Some(v5);
    assert Run(v3, cq, [FetchSucceeded(q1, r1), FetchSucceeded(q2, r2)]) == Some(v5);
    assert Run(v2, cq, events[2..]) == Some(v5);
    assert Run(v1, cq, events[1..]) == Some(v5);
    assert Run(v, cq, events) == Some(v5);
  }
}
