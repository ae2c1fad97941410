# Transit map root component: request lifecycle and itinerary selection

This project models the state logic of the public-transit map's root
component (`App.js`). The component holds the search parameters. When the
map submits, it sends a routing request if the query derived from the search
differs from the one recorded in `routes`; it then sets the visible URL to
the page query for that search. It ignores late successful responses to
queries that the search no longer derives; a late failure still overwrites
the routes record. It also records which of the returned itineraries is
selected.

The model has three modules.

- `Selection` (`selection.dfy`) covers itinerary candidates (`Path`, which
  keeps only the `isPossible` and `isSelected` flags). It has three
  specification functions. `FirstPossible` gives the first feasible index,
  or -1. `MarkFirstPossible` flags the path at that index as selected.
  `Reselect` moves the selection from one index to another. Lemmas
  prove that a selection confined to one index means at most one selected
  path. The method `SelectPathOnReceive` performs the pick in place on an
  array, using the same loop as the component.
- `Controller` (`controller.dfy`) takes a snapshot of the component's state
  as a value (`View`). Every handler is a pure transition on it. Asynchrony
  becomes discrete events applied to the current state:
  - the configuration arriving;
  - the search form changing;
  - a submission from the map, carrying the outcomes of its address lookups;
  - a routing response arriving or failing;
  - the user picking an itinerary.

  `Step` and `Run` apply events one at a time. `Run` yields `None` where the
  component would fault. `CreateQuery` lives in a file that is not part of
  this model. It appears as a parameter `cq`: an arbitrary deterministic
  function of the target (the routing endpoint or the page) and the search
  parameters. The lemmas cover the following:
  - the invariant every event keeps;
  - idempotent submission;
  - discarding of superseded successful responses;
  - the failure path's lack of a staleness check;
  - aborting the submission when an address lookup fails;
  - three scenarios: a missing destination, a superseded response, and the
    pick from feasibility flags [false, true, true].
- `Component` (`app.dfy`) is the component as a class. It has fields
  `info`, `from`, `to`, `settings` (the remaining search parameters),
  `routes` (whose path list is an `array<Path>`), `url` (the address bar) and
  `issued` (the routing requests sent). Each handler is a method whose
  `ensures` states that the new `Snapshot()` is the matching `Controller`
  transition of the old one. So everything proved about the transitions
  holds of the object.

Points where the code may behave unexpectedly; the model follows the code:
- The route submission guard checks only that `from` and `to` are not null.
  An endpoint that is still a text address passes the guard
  (`App.js:106`), so a text address reaches the query builder.
- A failed request replaces the whole routes record and drops the path
  list (`App.js:136-142`), so the previous result is not kept.
- A submission from the map stores only the endpoints it looked up
  (non-empty strings, `App.js:76`, `App.js:87`). A coordinate endpoint in the
  event is not stored. The route submission then uses the endpoints already
  in the state (`Controller.SubmitNext`).
- A request failure has no staleness check. A failure that arrives late
  overwrites the result of a newer query, and the next submission with an
  unchanged search sends the same request again
  (`Controller.StaleFailureForcesRefetch`). The model reproduces this
  behaviour and does not correct it.
- After a failure of the current query, resubmitting with the search
  unchanged sends nothing: the failed query is recorded in `routes`
  (`App.js:138`) and the guard then skips it (`App.js:109`)
  (`Controller.FailedQueryNotRetried`).

## Model

| member | source | states |
|---|---|---|
| `Selection.FirstPossible` | web-bundle/src/main/resources/com/graphhopper/maps/pt/view/App.js:151-159 | the result is -1 or an index of the list; at that index the path is feasible, and no earlier path is; with -1, no path is feasible |
| `Selection.MarkFirstPossible` | web-bundle/src/main/resources/com/graphhopper/maps/pt/view/App.js:152-157 | only the first feasible path gets `isSelected` set, every other path is unchanged, and nothing changes when none is feasible |
| `Selection.SelectPathOnReceive` | web-bundle/src/main/resources/com/graphhopper/maps/pt/view/App.js:151-160 | the in-place scan returns `FirstPossible` of the old array and leaves the array equal to `MarkFirstPossible` of its old contents |
| `Selection.Reselect` | web-bundle/src/main/resources/com/graphhopper/maps/pt/view/App.js:184-187 | the path at the new index is selected; the previous index (if non-negative and different) is cleared; all other paths are unchanged |
| `Selection.SelectedOnlyAtCount` | web-bundle/src/main/resources/com/graphhopper/maps/pt/view/App.js:185-186 | if no path but the one at the recorded index is selected, then at most one path is selected, and exactly one when that path is |
| `Selection.MarkFirstPossibleSelects` | web-bundle/src/main/resources/com/graphhopper/maps/pt/view/App.js:151-159 | on a fresh unselected list, the pick leaves the selection confined to the returned index: one path is selected if any is feasible, and none otherwise |
| `Selection.ReselectSelects` | web-bundle/src/main/resources/com/graphhopper/maps/pt/view/App.js:184-189 | if the selection was confined to the old index, it is confined to the new index afterwards, with exactly one path selected |
| `Selection.FirstPossibleExample` | web-bundle/src/main/resources/com/graphhopper/maps/pt/view/App.js:151-159 | with feasibility flags [false, true, true], the pick is index 1 |
| `Controller.DefaultSearch` | web-bundle/src/main/resources/com/graphhopper/maps/pt/view/App.js:27-40 | the constructor defaults: no endpoints, "foot" profiles, betas 1.0, no range query, "PT120M", "PT30M", transfers counted, departure time mode at the current time |
| `Controller.SubmitRouteNext` | web-bundle/src/main/resources/com/graphhopper/maps/pt/view/App.js:104-149 | route submission leaves the state unchanged exactly when the configuration is missing, an endpoint is unset, or the derived route query is already recorded; otherwise the routes record becomes `{query, isFetching: true}`, one request is issued, and the URL becomes the page query; the search is never changed |
| `Controller.Succeeded` | web-bundle/src/main/resources/com/graphhopper/maps/pt/view/App.js:119-134 | a response is discarded when the query recomputed from the current search differs from the issued one; otherwise routes holds that query, is not fetching, succeeded, has the marked paths and the first feasible index |
| `Controller.Failed` | web-bundle/src/main/resources/com/graphhopper/maps/pt/view/App.js:136-142 | a failure always sets routes to the failed query, not fetching, unsuccessful, with no paths and no index; search, URL and requests are unchanged |
| `Controller.Reselected` | web-bundle/src/main/resources/com/graphhopper/maps/pt/view/App.js:184-189 | picking `k` records `k` as the index and turns the path list into `Reselect` of the old one from the recorded index (path `k` selected, a previous non-negative index cleared, all other paths kept); it keeps the path count, the feasibility flags and every other field of the state |
| `Controller.Addresses` | web-bundle/src/main/resources/com/graphhopper/maps/pt/view/App.js:76-78 | an endpoint gives one address to look up exactly when it is a non-empty string, and that address is the endpoint's own text |
| `Controller.Resolve` | web-bundle/src/main/resources/com/graphhopper/maps/pt/view/App.js:73-96 | the submission aborts exactly when a lookup fails; the origin is looked up before the destination; after a failed origin lookup nothing else is looked up; otherwise every string endpoint is looked up; on success exactly the looked-up endpoints get coordinates |
| `Controller.SubmitNext` | web-bundle/src/main/resources/com/graphhopper/maps/pt/view/App.js:72-102 | an aborted submission leaves the state unchanged; otherwise only the looked-up endpoints are replaced, the other search parameters are kept, and a route submission follows |
| `Controller.InitialInv` | web-bundle/src/main/resources/com/graphhopper/maps/pt/view/App.js:41-44 | the initial routes record satisfies the invariant |
| `Controller.InvAtMostOneSelected` | web-bundle/src/main/resources/com/graphhopper/maps/pt/view/App.js:184-189 | under the invariant, at most one itinerary is selected, and it is the one at the recorded index |
| `Controller.StepInv` | web-bundle/src/main/resources/com/graphhopper/maps/pt/view/App.js:72-189 | every event keeps the invariant (in flight means no paths; a path list has a recorded index in range and selection only there), given that received paths arrive unselected; the issued requests are only appended to |
| `Controller.RunInv` | web-bundle/src/main/resources/com/graphhopper/maps/pt/view/App.js:72-189 | the same holds for any sequence of events that does not fault |
| `Controller.SubmitRouteIdempotent` | web-bundle/src/main/resources/com/graphhopper/maps/pt/view/App.js:107-116 | submitting twice is the same as submitting once and issues at most one request |
| `Controller.SucceededIsCurrent` | web-bundle/src/main/resources/com/graphhopper/maps/pt/view/App.js:120-121 | an applied response always belongs to the query the current search derives; a response for any other query changes nothing |
| `Controller.StaleFailureForcesRefetch` | web-bundle/src/main/resources/com/graphhopper/maps/pt/view/App.js:136-142 | a failure for an older query replaces the stored result of the current query and drops its paths; the next submission with an unchanged search then requests the same route again |
| `Controller.FailedQueryNotRetried` | web-bundle/src/main/resources/com/graphhopper/maps/pt/view/App.js:109 | after the current query fails, a resubmission with the search unchanged changes nothing and sends no request, because the failed query is the recorded one |
| `Controller.OriginLookupFailureAborts` | web-bundle/src/main/resources/com/graphhopper/maps/pt/view/App.js:76-85 | a failed origin lookup leaves the state unchanged and the destination is not looked up |
| `Controller.MissingDestinationScenario` | web-bundle/src/main/resources/com/graphhopper/maps/pt/view/App.js:72-106 | with only an origin address and no destination, one lookup is made, the origin becomes the coordinates found, and no request is issued |
| `Controller.SupersededResponseDiscarded` | web-bundle/src/main/resources/com/graphhopper/maps/pt/view/App.js:104-145 | a request for Q1 is in flight and the search changes to Q2; then Q2 is requested, the late Q1 response is dropped, and the Q2 response is stored with its first feasible path selected |
| `Component.App.constructor` | web-bundle/src/main/resources/com/graphhopper/maps/pt/view/App.js:25-47 | the initial state is the defaults as overridden from the page address, with no configuration, an empty routes record, the page address as URL, and no requests sent |
| `Component.App.ReceiveInfo` | web-bundle/src/main/resources/com/graphhopper/maps/pt/view/App.js:49-54 | the arriving configuration sets the ready flag and nothing else |
| `Component.App.ChangeSearch` | web-bundle/src/main/resources/com/graphhopper/maps/pt/view/App.js:171 | a search-form change replaces the search parameters and nothing else |
| `Component.App.SubmitRoute` | web-bundle/src/main/resources/com/graphhopper/maps/pt/view/App.js:104-149 | the new state is `SubmitRouteNext` of the old one |
| `Component.App.OnSubmit` | web-bundle/src/main/resources/com/graphhopper/maps/pt/view/App.js:72-102 | the new state and the addresses looked up are `SubmitNext` of the old state and the event |
| `Component.App.FetchSucceeded` | web-bundle/src/main/resources/com/graphhopper/maps/pt/view/App.js:119-134 | the new state is `Succeeded` of the old one; an applied response stores a freshly allocated path array |
| `Component.App.FetchFailed` | web-bundle/src/main/resources/com/graphhopper/maps/pt/view/App.js:136-142 | the new state is `Failed` of the old one |
| `Component.App.SelectIndex` | web-bundle/src/main/resources/com/graphhopper/maps/pt/view/App.js:184-189 | the in-place update of the path array and the recorded index gives `Reselected` of the old state; the requires says the index must be inside the path array, which the source does not check |

## Left out

- Network transport (`window.fetch`) is not modelled. This covers the
  configuration request, the address lookup service and its URL, and the
  routing request. Their outcomes are event parameters instead: a `Lookup`
  value per address, and success with paths or failure per request.
- Parsing the looked-up `lat`/`lon` strings as floating-point numbers is
  left out. Coordinates are an opaque pair of reals.
- `CreateQuery`, `ParseQuery`, `TimeOption` and `Path` are defined in
  files that are not part of this model. The query builder and the URL
  parser are arbitrary deterministic functions given to the constructor.
  The model assumes that the query builder reads only the search parameters
  (not `info` or `routes`) and returns a string that is compared by value.
  The model takes both query bases (the routing endpoint and the page
  address) as fixed. No encode/decode round trip is claimed.
- The URL parser is assumed to set only the search parameters, not `info`
  or `routes`; in the source it receives the whole state object and
  mutates it in place (`App.js:46`).
- `Component.App.FetchSucceeded`: the response's paths arrive as
  already-built `Path` records. The construction of a `Path` from the raw
  response is not modelled. That fresh paths start unselected is a
  hypothesis of `Controller.StepInv` and `Controller.RunInv`, not a proven
  fact.
- Rendering (`render`, the sidebar and the map) is left out. From it, the
  model keeps only two handlers, because they change state:
  - the search-form change, restricted to the search parameters
    (`Component.App.ChangeSearch`);
  - the itinerary pick (`Component.App.SelectIndex`).
- Logging, the blocking alert on a failed lookup, and history entries are
  left out. The address bar appears only as its current value.
- Interleaving inside one submission is not modelled. A submission's
  lookups, its state update and its route submission run as one event,
  although the component awaits between them. Batching of React state
  updates is not modelled either.
- Path identity is not modelled. Paths are records in an array, so object
  aliasing between the routes record and other holders of a `Path` is not
  captured.
- The departure date and time is an integer clock reading. Only the
  `Departure` and `Arrival` time modes are represented.
