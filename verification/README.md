# Flight reservation resolver, modelled in Dafny

The resolver (`resolver.js`) assigns each reservation — a number of seats
from an origin to a destination — an itinerary: a chain of flights with
enough free seats each. It orders the reservations by seat count, largest
first. For each one it enumerates every loop-free chain of flights that
reaches the destination (`searchItinerary` / `nextItinerary`). Among them it
prefers the itinerary that leaves the fewest seats of the later reservations
without any itinerary (`getOptimalItinerary`). Ties go to the itinerary with
the least summed capacity (`getMinItinerary`), then to the earliest one
found. The chosen itinerary's seats are taken from its flights
(`applyItinerary`), and the result maps every reservation id to the chosen
flight ids, or to `null`.

The model:

- `wrappers.dfy` — `Option`, standing for JavaScript's `null`/`undefined`.
- `flights.dfy` (module `Flights`) — flights, reservations, itineraries as
  sequences of flight indices. Capacities are kept in a sequence parallel to
  the flights; the source mutates a `capacity` field instead.
  `getFlightsByOrigin`, `applyItinerary`, `recoverItinerary`.
- `search.dfy` (module `ItinerarySearch`) — the depth-first enumeration. It
  is proved sound, complete and in lexicographic order of flight positions.
- `shared_path.dfy` (module `SharedPath`) — the enumeration as the source
  writes it, with one array shared by all branches (see Findings).
- `selection.dfy` (module `Selection`) — `getMinItinerary` and the
  one-reservation-deep lookahead of `getOptimalItinerary`.
- `resolution.dfy` (module `Resolution`) — `resolveReservation`,
  `resolveAll`, the result object, and the round trip the tests use to
  check a resolution: giving every committed seat back restores the
  initial capacities.
- `scenarios.dfy` (module `Scenarios`) — the getMinItinerary tests of
  resolver.test.js, and general steps for unfolding one reservation or one
  run: the choice between two candidates, a step of the loop, a key of the
  result object.
- `three_flights.dfy` (module `ThreeFlights`) — the tests on F1 A-B, F2 B-C
  and F4 A-C: the search for every capacity, then each test.
- `five_flights.dfy` (module `FiveFlights`) — the tests on the five shared
  flights: the search for every capacity and every trip the tests ask for, then each test,
  with the nine-reservation run of "resolve all" unfolded step by step.

The search only reads capacities; in the model it is a pure function of
them, so it cannot change them.

Where the program is ambiguous, the code decides:

- A reservation whose origin equals its destination still takes a first
  flight. Only a cycle back to the origin can serve it.
- Capacities are plain integers. The model states no bound, and a
  reservation with a non-positive count is searched like any other.
- `getMinItinerary` of an empty list is `undefined` in the source, and so
  is `getOptimalItinerary` of an empty list: `Math.min()` is `Infinity`, no
  candidate scores it, and `getMinItinerary([])` is called. The model
  returns `None` for both. `resolveReservation` never asks for either,
  because it answers `null` first when the search finds nothing
  (resolver.js:105-107). For a non-empty list the least-scored candidates
  are never empty, so `getMinItinerary` always answers there.

## Model

| member | source | states |
|---|---|---|
| Flights.FlightsByOrigin | resolver.js:1-3 | the result holds exactly the positions of the flights leaving the origin, in flight order |
| Flights.Apply | resolver.js:5-9 | every flight loses the count once per occurrence in the itinerary; the others keep their seats |
| Flights.Recover | resolver.js:11-15 | every flight regains the count once per occurrence in the itinerary |
| Flights.RecoverApply | resolver.js:5-15 | recovering an applied itinerary restores the capacities exactly |
| Flights.RecoverCommute | resolver.test.js:9-20 | giving seats back for two itineraries gives the same capacities in either order |
| Flights.ApplyDistinct | resolver.js:5-9 | on a loop-free itinerary, applying takes the count from exactly its flights |
| Flights.TotalCapacity | resolver.js:19 | on non-negative capacities the summed capacity is non-negative and at least the first flight's seats |
| Flights.ApplyRecover | resolver.js:5-15 | applying what was recovered restores the capacities exactly |
| Flights.Ids | resolver.js:112 | the ids of an itinerary's flights, one per flight, in order |
| ItinerarySearch.Extend | resolver.js:62-85 | every path found from a partial itinerary is a full itinerary extending it |
| ItinerarySearch.Branches | resolver.js:68-80 | every path found through the candidate flights is an itinerary whose next flight is a candidate |
| ItinerarySearch.Search | resolver.js:87-99 | every path found is an itinerary: loop-free, linked, from the origin, ending on first arrival at the destination, every flight with enough seats |
| ItinerarySearch.SearchExact | resolver.js:87-99 | a path is found if and only if it is such an itinerary |
| ItinerarySearch.SearchOrdered | resolver.js:87-99 | the paths come in lexicographic order of flight positions, with no repeats |
| SharedPath.NextShared | resolver.js:62-85 | with the one shared array, every call leaves the array extended, never shortened |
| SharedPath.BranchesShared | resolver.js:70-80 | the loop only extends the shared array, and a loop-free array whose flights all have room stays so |
| SharedPath.StartsShared | resolver.js:90-96 | every reported array starts with one of the origin's flights, is loop-free, and every flight on it has room |
| SharedPath.SearchAsWritten | resolver.js:87-99 | every array the search as written reports starts at a flight leaving the origin, is loop-free and has room on every flight; it need not be a linked route |
| SharedPath.AliasingCounterexample | resolver.js:73-83 | on a fork the shared array yields F1, F2, F3 twice, which is no itinerary; per-branch copies yield F1, F2 and F1, F3 |
| Selection.ArgMin | resolver.js:21-24 | the position holds the least value, and no earlier position holds it |
| Selection.Totals | resolver.js:19 | one summed capacity per itinerary |
| Selection.MinItinerary | resolver.js:17-25 | nothing for an empty list; otherwise the first itinerary of least summed capacity |
| Selection.UnresolvedZero | resolver.js:39-50 | with positive counts, the unresolved seat count is zero exactly when every later reservation still finds an itinerary |
| Selection.Unresolved | resolver.js:39-50 | with non-negative counts, the seats left unresolved are at least zero and at most the seats the later reservations ask for |
| Selection.Score | resolver.js:34-52 | a candidate for the last reservation scores zero: no later reservation can be left unresolved |
| Selection.Speculate | resolver.js:31-53 | scoring the candidates in turn with apply and recover ends with the capacities restored and lists one score per candidate, each the score it has against the untouched capacities |
| Selection.SpeculateScores | resolver.js:31-53 | the score at every position is the seats of the later reservations left without an itinerary once that candidate is taken from the starting capacities |
| Selection.Positions | resolver.js:56 | exactly the positions holding the least score, in order |
| Selection.Pick | resolver.js:56 | the candidates at those positions, in order |
| Selection.TightestOfLeast | resolver.js:55-59 | the first tightest of the least-scored candidates has the least score, the least summed capacity among equal scores, and every earlier candidate is worse in one of the two |
| Selection.LeastScored | resolver.js:55-56 | of a non-empty list, a non-empty list of candidates, each one of the listed itineraries at a position holding the least score |
| Selection.ChoiceAmongCandidates | resolver.js:55-59 | the tightest of the least-scored candidates is the least score, then least capacity, then earliest candidate of the whole list |
| Selection.MinIsLookahead | resolver.js:55-59 | getMinItinerary over the least-scored candidates always answers, with a listed itinerary that is the lookahead's choice |
| Selection.OptimalItinerary | resolver.js:27-60 | nothing only for an empty list; otherwise a listed itinerary of least score, least capacity among those, earliest on a full tie |
| Resolution.Insert | resolver.js:117 | inserting into a list sorted by descending count keeps it sorted |
| Resolution.InsertPermutes | resolver.js:117 | insertion adds the reservation and loses none |
| Resolution.InsertStable | resolver.js:117 | insertion puts the reservation after all others of its count |
| Resolution.SortByCount | resolver.js:117 | the reservations end sorted by descending count |
| Resolution.SortPermutes | resolver.js:117 | the sort is a permutation |
| Resolution.SortStable | resolver.js:117 | reservations of equal count keep their input order |
| Resolution.ResolveReservation | resolver.js:101-113 | unresolved exactly when the search finds nothing, and then capacities are unchanged |
| Resolution.ResolveChoice | resolver.js:103-109 | a committed itinerary is an itinerary for the reservation and the lookahead's choice among all itineraries found |
| Resolution.ResolveUpdate | resolver.js:110 | committing takes the count from exactly the chosen flights and leaves every other flight unchanged |
| Resolution.CommitNonNegative | resolver.js:110 | committing keeps non-negative capacities non-negative |
| Resolution.ResolveFrom | resolver.js:121-124 | the loop handles the sorted reservations from the index on, each once, in order |
| Resolution.ResolveFromInvariants | resolver.js:121-124 | along the loop capacities stay non-negative and every committed itinerary is a route for its reservation |
| Resolution.ResolveAll | resolver.js:115-127 | every reservation is handled exactly once, in descending count order |
| Resolution.RunInvariants | resolver.js:115-127 | equal counts are handled in input order, capacities stay non-negative, every committed itinerary is a route |
| Resolution.GiveBack | resolver.test.js:10-18 | an unresolved entry gives nothing back; a committed one gives back exactly what applying its itinerary takes, and with a non-negative count no capacity falls |
| Resolution.Replay | resolver.test.js:9-20 | giving back every entry never lowers a capacity when the counts are non-negative, and changes nothing when no entry was committed |
| Resolution.ReplayRecover | resolver.test.js:9-20 | giving seats back commutes with recovering one more itinerary |
| Resolution.ResolveFromRoundTrip | resolver.js:121-124 | giving back every commit of the loop restores the capacities the loop started from |
| Resolution.RoundTrip | resolver.test.js:8-20 | giving back every commit of a whole run restores the initial capacities |
| Resolution.Resolved | resolver.js:105-112 | `null` exactly for an unresolved entry; otherwise the flight ids of its itinerary, one per flight, in order |
| Resolution.IdsOf | resolver.js:122 | an id is in the set exactly when some reservation carries it |
| Resolution.ResultMap | resolver.js:119-126 | the result has exactly one key per reservation id handled |
| Resolution.ResultMapLastWins | resolver.js:123 | under a repeated id the result holds the outcome of the last reservation with that id |
| Resolution.EveryIdAnswered | resolver.js:115-127 | the keys of the result are exactly the ids of the input reservations |
| ItinerarySearch.StepDirect | resolver.js:68-84 | a first flight straight to the destination is found on its own exactly when it has room, ahead of what the later departures give |
| ItinerarySearch.StepOneStop | resolver.js:68-84 | a first flight to a stop with one flight on to the destination gives that two-flight itinerary exactly when both have room |
| ItinerarySearch.StepDeadEnd | resolver.js:68-84 | a first flight to a place no flight leaves gives nothing |
| ItinerarySearch.OneStop | resolver.js:68-84 | from the stop, the one departing flight completes the itinerary exactly when it has room |
| Scenarios.MinTrivialScenario | resolver.test.js:22-32 | of itineraries with 5 and 4 seats, getMinItinerary answers the second |
| Scenarios.MinScenario | resolver.test.js:34-44 | of itineraries with 9 seats and with 4 and 3 seats, getMinItinerary answers the two-flight one |
| Scenarios.NoRoomUnresolved | resolver.js:101-107 | a reservation that no flight can seat is unresolved and changes no capacity |
| Scenarios.LastIsTightest | resolver.js:55-59 | for the last reservation every candidate scores zero, so the committed itinerary has the least summed capacity of all found |
| Scenarios.ChooseOfTwo | resolver.js:55-59 | of two candidates the lookahead takes the first unless the second scores lower, or scores the same with fewer seats |
| Scenarios.PickFirst | resolver.js:101-109 | when the search offers two itineraries and the first scores lower, or the same with no more seats, the first is committed |
| Scenarios.RunStep | resolver.js:121-124 | a step of the loop of resolveAll in front of the rest of the run gives the run from that step |
| Scenarios.RunEnd | resolver.js:121 | past the last reservation the loop yields nothing and keeps the capacities |
| Scenarios.ResultStep | resolver.js:123 | an entry under an id not yet in the result adds exactly that key |
| SharedPath.ForkShared | resolver.js:62-99 | on the fork the search as written returns one array, F1, F2, F3, twice |
| SharedPath.ForkIntended | resolver.js:62-99 | on the fork the search with a copy per branch returns F1, F2 and then F1, F3 |
| ThreeFlights.FromA | resolver.js:87-99 | on F1 A-B, F2 B-C, F4 A-C and any capacities, the search from A to C finds F1 then F2 when both have room, then F4 when it has room |
| ThreeFlights.FromB | resolver.js:87-99 | on the same flights the search from B to C finds F2 exactly when it has room |
| ThreeFlights.ComplexSearchScenario | resolver.test.js:157-174 | with seats 8, 4, 5, three seats from A to C find F1 and F2, then F4 |
| ThreeFlights.ComplexResolveScenario | resolver.test.js:132-148 | with seats 8, 4, 5, PNR04 gets F4, PNR02 gets F1 and F2, PNR10 gets null, leaving 5, 1 and 1 seats |
| ThreeFlights.UnbalancedScenario | resolver.test.js:176-195 | with seats 5, 4, 100, PNR02 gets F4 and PNR01 gets F2, leaving 5, 2 and 96 seats |
| FiveFlights.NetworkSearches | resolver.js:87-99 | on the five test flights and any capacities, each trip the tests ask for finds exactly the itineraries with room, in search order |
| FiveFlights.SearchScenario | resolver.test.js:66-83 | three seats from A to B find F1, F2, F4 and F5, F6 and F5, in that order |
| FiveFlights.ResolveScenario | resolver.test.js:85-98 | three seats from A to B alone: F2 is committed, answered as the id F2, and keeps one seat; the other flights keep theirs |
| FiveFlights.UnresolvedScenario | resolver.test.js:100-106 | ten seats from A to B: unresolved, capacities unchanged |
| FiveFlights.ResolveAllScenario | resolver.test.js:108-124 | the nine test reservations get the answers the test lists, and only F5 keeps a seat |

## Left out

- index.js and parser.js are not part of this model. index.js serves `POST /resolve-reservation` over HTTP: parser.js reads the uploaded reservation and flight files, and the answer is JSON holding the result object and the flights with the capacities `resolveAll` left in place. The HTTP server, the file parsing and the JSON encoding are left out; the final capacities are `Resolution.caps` in the model.
- In-place mutation: `reservations.sort` reorders the caller's array, and the flights' `capacity` fields change in place. The model returns the sorted order and the final capacities as values instead.
- Property order of the result object. JavaScript lists the keys that are array indices (canonical non-negative integer strings such as `"10"` or `"101"`) first, in ascending numeric order, and then the other keys in insertion order. Ids come unchanged from the uploaded file, so both kinds can occur. The model's result is a map with no order, and the processing order is kept in `Resolution.entries`.
- Floating-point numbers: counts and capacities are integers in the model. `NaN`, non-numeric counts and comparator oddities are not modelled.
- Running time: the search is exponential in the number of flights. The model says nothing about cost.
- The `flights.find` lookup by id in the tests' check, which assumes distinct flight ids: the round trip gives seats back by flight position instead.
- The tests' check reads `result[reservation.id]`. With repeated reservation ids that reads the last reservation's itinerary for each of them. The round trip gives back each handled reservation's own itinerary, which is what the check intends.
- Selection.MinItinerary: the `undefined` returned for an empty list is modelled as `None`.
- Selection.OptimalItinerary, Resolution.ResolveReservation, Resolution.ResolveChoice, Resolution.ResolveAll and Resolution.RunInvariants run on ItinerarySearch.Search, the corrected search of the Findings row, not on the shared array as written. On a network with a fork after the first flight the program as written differs. It commits the aliased array, taking seats from flights that are not on any route (on the fork of the Findings row it answers F1, F2, F3). It can also miss itineraries, because a flight left in the array by an earlier branch blocks later branches. An example is flights a S→X, g X→W, f W→X, h X→W, k X→D and a trip from S to D: as written only the array a, g, f, h, k is reported, while a, k and a, h, f, k are lost. Those differences change `null` answers and lookahead scores. SharedPath models the search as written but nothing is built on it.
- Resolution.ResultMap, Resolution.EveryIdAnswered: a reservation id of `__proto__` is a key like any other in the model. In JavaScript, `result["__proto__"] = …` (resolver.js:123) sets the result object's prototype instead of adding an own key, so that id is missing from the answer. Ids are taken from the input unchanged, so such an id can occur.
- SharedPath: only the shape of the as-written result is modelled (the shared array and how many times it was reported), not object identity.

## Findings

| source | as written | input that shows it | evidently intended | confidence | as-written member | corrected member |
|---|---|---|---|---|---|---|
| resolver.js:73-83 | `nextItinerary` pushes each flight onto one array shared by all branches, never pops it, and pushes that same array into the result at every arrival | flights F1 A→B, F2 B→C, F3 B→C, all with 5 seats; one seat from A to C | every branch extends its own copy, giving F1, F2 and then F1, F3; as written the result is the array F1, F2, F3 twice, and F2 lands at C where F3 does not depart | high, not executed | SharedPath.AliasingCounterexample | ItinerarySearch.SearchExact |
