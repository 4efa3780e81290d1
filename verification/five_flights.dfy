/** The five flights most tests of resolver.test.js share — F1 A->B with 8
    seats, F2 A->B with 4, F4 A->C with 5, F5 C->B with 7, F6 A->C with 6 —
    and the tests on them: "search itinerary", "resolve reservation",
    "resolve reservation unresolved" and "resolve all". The search on these
    flights is characterised once for any capacities; each test is then
    worked out from the general contracts. */
module FiveFlights {
  import opened Wrappers
  import opened Flights
  import opened ItinerarySearch
  import opened Selection
  import opened Resolution
  import opened Scenarios

  function TestFlights(): seq<Flight>
  {
    [Flight("F1", "A", "B"), Flight("F2", "A", "B"), Flight("F4", "A", "C"),
     Flight("F5", "C", "B"), Flight("F6", "A", "C")]
  }

  function TestCaps(): seq<int>
  {
    [8, 4, 5, 7, 6]
  }

  /** The five flights by their ids. */
  predicate Labels(fl: seq<Flight>)
  {
    |fl| == 5 && fl[0].id == "F1" && fl[1].id == "F2" && fl[2].id == "F4" && fl[3].id == "F5" && fl[4].id == "F6"
  }

  /** The one flight out of C: F5, to B. */
  predicate RouteC(fl: seq<Flight>)
  {
    |fl| == 5 && fl[3].origin == "C" && fl[3].destination == "B" && FlightsByOrigin(fl, "C") == [3]
  }

  /** The flights out of A and where they land. */
  predicate LeavingA(fl: seq<Flight>)
  {
    && |fl| == 5
    && fl[0].destination == "B" && fl[1].destination == "B" && fl[2].destination == "C" && fl[4].destination == "C"
    && FlightsByOrigin(fl, "A") == [0, 1, 2, 4]
  }

  /** What the search from A to B needs to know of the flights. */
  predicate RouteAB(fl: seq<Flight>)
  {
    LeavingA(fl) && RouteC(fl)
  }

  /** What the search from A to C needs: nothing leaves B. */
  predicate RouteAC(fl: seq<Flight>)
  {
    LeavingA(fl) && FlightsByOrigin(fl, "B") == []
  }

  /** What the runs need to know of the flights' routes. */
  predicate Network(fl: seq<Flight>)
  {
    RouteAB(fl) && RouteAC(fl)
  }

  /** The five flights, by id and by route. */
  predicate Shape(fl: seq<Flight>)
  {
    Labels(fl) && Network(fl)
  }

  lemma DeparturesA(fl: seq<Flight>)
    requires fl == TestFlights()
    ensures FlightsByOrigin(fl, "A") == [0, 1, 2, 4]
  {
  }

  lemma DeparturesB(fl: seq<Flight>)
    requires fl == TestFlights()
    ensures FlightsByOrigin(fl, "B") == []
  {
  }

  lemma DeparturesC(fl: seq<Flight>)
    requires fl == TestFlights()
    ensures FlightsByOrigin(fl, "C") == [3]
  {
  }

  lemma ShapeOf(fl: seq<Flight>)
    requires fl == TestFlights()
    ensures Shape(fl)
  {
    DeparturesA(fl);
    DeparturesB(fl);
    DeparturesC(fl);
  }

  /** The one itinerary `p` when `b` holds, nothing otherwise. */
  function Found(b: bool, p: Path): seq<Path>
  {
    if b then [p] else []
  }

  // The search on these flights.

  /** From A to B: F1, then F2, then F4 and F5, then F6 and F5, each when
      all its flights have room. */
  lemma AtoB(fl: seq<Flight>, caps: seq<int>, res: Reservation)
    requires RouteAB(fl) && |caps| == 5 && res.origin == "A" && res.destination == "B"
    ensures Search(fl, caps, res) ==
            Found(caps[0] >= res.count, [0]) +
            (Found(caps[1] >= res.count, [1]) +
             (Found(caps[2] >= res.count && caps[3] >= res.count, [2, 3]) +
              Found(caps[4] >= res.count && caps[3] >= res.count, [4, 3])))
  {
    assert Search(fl, caps, res) == Branches(fl, caps, res, [], "A", [0, 1, 2, 4]);
    assert Partial(fl, caps, res, [], res.origin) && DepartingFrom(fl, res.origin, [0, 1, 2, 4]);
    StepDirect(fl, caps, res, [0, 1, 2, 4]);
    assert [0, 1, 2, 4][1..] == [1, 2, 4];
    AtoBAfterF1(fl, caps, res);
  }

  lemma AtoBAfterF1(fl: seq<Flight>, caps: seq<int>, res: Reservation)
    requires RouteAB(fl) && |caps| == 5 && res.origin == "A" && res.destination == "B"
    requires Partial(fl, caps, res, [], res.origin) && DepartingFrom(fl, res.origin, [1, 2, 4])
    ensures Branches(fl, caps, res, [], "A", [1, 2, 4]) ==
            Found(caps[1] >= res.count, [1]) +
            (Found(caps[2] >= res.count && caps[3] >= res.count, [2, 3]) +
             Found(caps[4] >= res.count && caps[3] >= res.count, [4, 3]))
  {
    StepDirect(fl, caps, res, [1, 2, 4]);
    assert [1, 2, 4][1..] == [2, 4];
    AtoBAfterF2(fl, caps, res);
  }

  lemma AtoBAfterF2(fl: seq<Flight>, caps: seq<int>, res: Reservation)
    requires RouteAB(fl) && |caps| == 5 && res.origin == "A" && res.destination == "B"
    requires Partial(fl, caps, res, [], res.origin) && DepartingFrom(fl, res.origin, [2, 4])
    ensures Branches(fl, caps, res, [], "A", [2, 4]) ==
            Found(caps[2] >= res.count && caps[3] >= res.count, [2, 3]) +
            Found(caps[4] >= res.count && caps[3] >= res.count, [4, 3])
  {
    StepOneStop(fl, caps, res, [2, 4], 3);
    assert [2, 4][1..] == [4];
    LastViaC(fl, caps, res);
  }

  lemma LastViaC(fl: seq<Flight>, caps: seq<int>, res: Reservation)
    requires RouteAB(fl) && |caps| == 5 && res.origin == "A" && res.destination == "B"
    requires Partial(fl, caps, res, [], res.origin) && DepartingFrom(fl, res.origin, [4])
    ensures Branches(fl, caps, res, [], "A", [4]) == Found(caps[4] >= res.count && caps[3] >= res.count, [4, 3])
  {
    StepOneStop(fl, caps, res, [4], 3);
    assert [4][1..] == [];
    BranchesNone(fl, caps, res, [], res.origin);
  }

  /** From A to C: F1 and F2 land at B, where nothing departs; then F4, then
      F6, each when it has room. */
  lemma AtoC(fl: seq<Flight>, caps: seq<int>, res: Reservation)
    requires RouteAC(fl) && |caps| == 5 && res.origin == "A" && res.destination == "C"
    ensures Search(fl, caps, res) == Found(caps[2] >= res.count, [2]) + Found(caps[4] >= res.count, [4])
  {
    assert Search(fl, caps, res) == Branches(fl, caps, res, [], "A", [0, 1, 2, 4]);
    assert Partial(fl, caps, res, [], res.origin) && DepartingFrom(fl, res.origin, [0, 1, 2, 4]);
    StepDeadEnd(fl, caps, res, [0, 1, 2, 4]);
    assert [0, 1, 2, 4][1..] == [1, 2, 4];
    StepDeadEnd(fl, caps, res, [1, 2, 4]);
    assert [1, 2, 4][1..] == [2, 4];
    AtoCAfterF2(fl, caps, res);
  }

  lemma AtoCAfterF2(fl: seq<Flight>, caps: seq<int>, res: Reservation)
    requires RouteAC(fl) && |caps| == 5 && res.origin == "A" && res.destination == "C"
    requires Partial(fl, caps, res, [], res.origin) && DepartingFrom(fl, res.origin, [2, 4])
    ensures Branches(fl, caps, res, [], "A", [2, 4]) == Found(caps[2] >= res.count, [2]) + Found(caps[4] >= res.count, [4])
  {
    StepDirect(fl, caps, res, [2, 4]);
    assert [2, 4][1..] == [4];
    LastDirect(fl, caps, res);
  }

  lemma LastDirect(fl: seq<Flight>, caps: seq<int>, res: Reservation)
    requires RouteAC(fl) && |caps| == 5 && res.origin == "A" && res.destination == "C"
    requires Partial(fl, caps, res, [], res.origin) && DepartingFrom(fl, res.origin, [4])
    ensures Branches(fl, caps, res, [], "A", [4]) == Found(caps[4] >= res.count, [4])
  {
    StepDirect(fl, caps, res, [4]);
    assert [4][1..] == [];
    BranchesNone(fl, caps, res, [], res.origin);
  }

  /** From C to B: F5 when it has room. */
  lemma CtoB(fl: seq<Flight>, caps: seq<int>, res: Reservation)
    requires RouteC(fl) && |caps| == 5 && res.origin == "C" && res.destination == "B"
    ensures Search(fl, caps, res) == Found(caps[3] >= res.count, [3])
  {
    assert Search(fl, caps, res) == Branches(fl, caps, res, [], "C", [3]);
    assert Partial(fl, caps, res, [], res.origin) && DepartingFrom(fl, res.origin, [3]);
    StepDirect(fl, caps, res, [3]);
    assert [3][1..] == [];
    BranchesNone(fl, caps, res, [], res.origin);
  }

  /** The three trips the tests ask for: A to B, A to C and C to B. */
  predicate Asked(r: Reservation)
  {
    || (r.origin == "A" && (r.destination == "B" || r.destination == "C"))
    || (r.origin == "C" && r.destination == "B")
  }

  /** The itineraries with room for `r` on these flights, in the order the
      search finds them. */
  function Offers(caps: seq<int>, r: Reservation): seq<Path>
    requires |caps| == 5
  {
    if r.origin == "C" then Found(caps[3] >= r.count, [3])
    else if r.destination == "C" then Found(caps[2] >= r.count, [2]) + Found(caps[4] >= r.count, [4])
    else
      Found(caps[0] >= r.count, [0]) +
      (Found(caps[1] >= r.count, [1]) +
       (Found(caps[2] >= r.count && caps[3] >= r.count, [2, 3]) +
        Found(caps[4] >= r.count && caps[3] >= r.count, [4, 3])))
  }

  /** The search on these flights finds the offers, for every capacity and
      every trip the tests ask for. */
  ghost predicate Searches(fl: seq<Flight>)
  {
    && |fl| == 5
    && forall caps: seq<int>, r: Reservation {:trigger Search(fl, caps, r)} ::
         |caps| == 5 && Asked(r) ==> Search(fl, caps, r) == Offers(caps, r)
  }

  lemma NetworkSearches(fl: seq<Flight>)
    requires Network(fl)
    ensures Searches(fl)
  {
    forall caps: seq<int>, r: Reservation | |caps| == 5 && Asked(r)
      ensures Search(fl, caps, r) == Offers(caps, r)
    {
      if r.origin == "C" {
        OffersCtoB(fl, caps, r);
      } else if r.destination == "C" {
        OffersAtoC(fl, caps, r);
      } else {
        OffersAtoB(fl, caps, r);
      }
    }
  }

  lemma OffersAtoB(fl: seq<Flight>, caps: seq<int>, r: Reservation)
    requires RouteAB(fl) && |caps| == 5 && r.origin == "A" && r.destination == "B"
    ensures Search(fl, caps, r) == Offers(caps, r)
  {
    AtoB(fl, caps, r);
  }

  lemma OffersAtoC(fl: seq<Flight>, caps: seq<int>, r: Reservation)
    requires RouteAC(fl) && |caps| == 5 && r.origin == "A" && r.destination == "C"
    ensures Search(fl, caps, r) == Offers(caps, r)
  {
    AtoC(fl, caps, r);
  }

  lemma OffersCtoB(fl: seq<Flight>, caps: seq<int>, r: Reservation)
    requires RouteC(fl) && |caps| == 5 && r.origin == "C" && r.destination == "B"
    ensures Search(fl, caps, r) == Offers(caps, r)
  {
    CtoB(fl, caps, r);
  }

  /** The search on these flights, for one of the trips the tests ask for. */
  lemma Searched(fl: seq<Flight>, caps: seq<int>, res: Reservation)
    requires Searches(fl) && |caps| == 5 && Asked(res)
    ensures Search(fl, caps, res) == Offers(caps, res)
  {
  }

  /** From A to B with room on F2 only. */
  lemma OnlyF2(caps: seq<int>, res: Reservation)
    requires |caps| == 5 && res.origin == "A" && res.destination == "B"
    requires caps[0] < res.count && caps[1] >= res.count && caps[2] < res.count && caps[4] < res.count
    ensures Offers(caps, res) == [[1]]
  {
  }

  /** From A to B with room on F1 only. */
  lemma OnlyF1(caps: seq<int>, res: Reservation)
    requires |caps| == 5 && res.origin == "A" && res.destination == "B"
    requires caps[0] >= res.count && caps[1] < res.count && caps[2] < res.count && caps[4] < res.count
    ensures Offers(caps, res) == [[0]]
  {
  }

  /** From A to B with room on F6 and F5 only. */
  lemma OnlyViaF6(caps: seq<int>, res: Reservation)
    requires |caps| == 5 && res.origin == "A" && res.destination == "B"
    requires caps[0] < res.count && caps[1] < res.count && caps[2] < res.count
    requires caps[3] >= res.count && caps[4] >= res.count
    ensures Offers(caps, res) == [[4, 3]]
  {
  }

  /** From A to C with room on F4 only. */
  lemma OnlyF4(caps: seq<int>, res: Reservation)
    requires |caps| == 5 && res.origin == "A" && res.destination == "C"
    requires caps[2] >= res.count && caps[4] < res.count
    ensures Offers(caps, res) == [[2]]
  {
  }

  /** From A to C with room on F6 only. */
  lemma OnlyF6(caps: seq<int>, res: Reservation)
    requires |caps| == 5 && res.origin == "A" && res.destination == "C"
    requires caps[2] < res.count && caps[4] >= res.count
    ensures Offers(caps, res) == [[4]]
  {
  }

  /** From C to B with room on F5. */
  lemma OnlyF5(caps: seq<int>, res: Reservation)
    requires |caps| == 5 && res.origin == "C" && res.destination == "B"
    requires caps[3] >= res.count
    ensures Offers(caps, res) == [[3]]
  {
  }

  /** From A to C with room on both F4 and F6. */
  lemma BothToC(caps: seq<int>, res: Reservation)
    requires |caps| == 5 && res.origin == "A" && res.destination == "C"
    requires caps[2] >= res.count && caps[4] >= res.count
    ensures Offers(caps, res) == [[2], [4]]
  {
    Cons2([2], [4]);
  }

  lemma SearchFourth(fl: seq<Flight>, res: Reservation)
    requires Searches(fl) && Trip(res, 3, "A", "B")
    ensures Search(fl, [0, 4, 1, 3, 6], res) == [[1], [4, 3]]
  {
    Searched(fl, [0, 4, 1, 3, 6], res);
    DirectOrViaC([0, 4, 1, 3, 6], res);
  }

  lemma SearchSecond(fl: seq<Flight>, res: Reservation)
    requires Searches(fl) && Trip(res, 4, "A", "C")
    ensures Search(fl, [0, 4, 5, 7, 6], res) == [[2], [4]]
  {
    Searched(fl, [0, 4, 5, 7, 6], res);
    BothToC([0, 4, 5, 7, 6], res);
  }

  /** From A to B with room on F2 and on F6 and F5, but not on F1 or F4. */
  lemma DirectOrViaC(caps: seq<int>, res: Reservation)
    requires |caps| == 5 && res.origin == "A" && res.destination == "B"
    requires caps[0] < res.count && caps[1] >= res.count && caps[2] < res.count
    requires caps[3] >= res.count && caps[4] >= res.count
    ensures Offers(caps, res) == [[1], [4, 3]]
  {
    Cons2([1], [4, 3]);
  }

  // The test "search itinerary": three seats from A to B.

  /** The search finds F1, F2, then F4 and F5, then F6 and F5: the order in
      which the test expects them. */
  lemma SearchScenario(fl: seq<Flight>, caps: seq<int>, res: Reservation)
    requires fl == TestFlights() && caps == TestCaps() && res == Reservation("PNR01", 3, "A", "B")
    ensures Search(fl, caps, res) == [[0], [1], [2, 3], [4, 3]]
  {
    ShapeOf(fl);
    NetworkSearches(fl);
    Searched(fl, caps, res);
    AllRoom(caps, res);
  }

  lemma AllRoom(caps: seq<int>, res: Reservation)
    requires |caps| == 5 && res.origin == "A" && res.destination == "B"
    requires caps[0] >= res.count && caps[1] >= res.count && caps[2] >= res.count
    requires caps[3] >= res.count && caps[4] >= res.count
    ensures Offers(caps, res) == [[0], [1], [2, 3], [4, 3]]
  {
    Cons4([0], [1], [2, 3], [4, 3]);
  }

  // The tests "resolve reservation" and "resolve reservation unresolved".

  /** Ten seats from A to B: no test flight has ten seats. */
  lemma UnresolvedScenario(fl: seq<Flight>, caps: seq<int>, rs: seq<Reservation>)
    requires fl == TestFlights() && caps == TestCaps() && rs == [Reservation("PNR04", 10, "A", "B")]
    ensures ResolveReservation(fl, caps, rs, 0) == Outcome(None, caps)
  {
    NoRoomUnresolved(fl, caps, rs, 0);
  }

  /** Three seats from A to B with nothing after it: F2, the flight with the
      fewest seats, is taken and keeps one seat. */
  lemma ResolveScenario(fl: seq<Flight>, caps: seq<int>, rs: seq<Reservation>)
    requires fl == TestFlights() && caps == TestCaps() && rs == [Reservation("PNR01", 3, "A", "B")]
    ensures ResolveReservation(fl, caps, rs, 0) == Outcome(Some([1]), [8, 1, 5, 7, 6])
    ensures Ids(fl, [1]) == ["F2"]
  {
    ShapeOf(fl);
    NetworkSearches(fl);
    ResolveAlone(fl, rs);
    IdsOne(fl, 1);
  }

  lemma ResolveAlone(fl: seq<Flight>, rs: seq<Reservation>)
    requires Searches(fl) && |rs| == 1 && Trip(rs[0], 3, "A", "B")
    ensures ResolveReservation(fl, [8, 4, 5, 7, 6], rs, 0) == Outcome(Some([1]), [8, 1, 5, 7, 6])
  {
    Searched(fl, [8, 4, 5, 7, 6], rs[0]);
    AllRoom([8, 4, 5, 7, 6], rs[0]);
    AloneChoosesF2(fl, rs);
    TakeAlone();
    CommitChosen(fl, [8, 4, 5, 7, 6], rs, 0, [1], 3, [8, 1, 5, 7, 6]);
  }

  lemma AloneChoosesF2(fl: seq<Flight>, rs: seq<Reservation>)
    requires |fl| == 5 && |rs| == 1 && Search(fl, [8, 4, 5, 7, 6], rs[0]) == [[0], [1], [2, 3], [4, 3]]
    ensures ResolveReservation(fl, [8, 4, 5, 7, 6], rs, 0).chosen == Some([1])
  {
    var caps := [8, 4, 5, 7, 6];
    var o := ResolveReservation(fl, caps, rs, 0);
    assert && o.chosen.Some? && o.chosen.value in [[0], [1], [2, 3], [4, 3]] && InRange(5, o.chosen.value)
           && TotalCapacity(caps, o.chosen.value) <= TotalCapacity(caps, [1]) by {
      assert [1] in Search(fl, caps, rs[0]);
      LastIsTightest(fl, caps, rs, 0, [1]);
    }
    FewestOfAll(o.chosen.value);
  }

  /** Of the four itineraries from A to B, F2 alone has the fewest seats at
      the start. */
  lemma FewestOfAll(p: Path)
    requires p in [[0], [1], [2, 3], [4, 3]] && InRange(5, p)
    requires TotalCapacity([8, 4, 5, 7, 6], p) <= TotalCapacity([8, 4, 5, 7, 6], [1])
    ensures p == [1]
  {
    var caps := [8, 4, 5, 7, 6];
    Total1(caps, 0);
    Total1(caps, 1);
    Total2(caps, 2, 3);
    Total2(caps, 4, 3);
  }

  lemma TakeAlone()
    ensures Take5([8, 4, 5, 7, 6], [1], 3) == [8, 1, 5, 7, 6]
  {
  }

  // Capacities after a commit.

  /** The capacities left when `n` seats are taken from each flight of
      `on`. */
  function Take5(caps: seq<int>, on: Path, n: int): seq<int>
    requires |caps| == 5
  {
    [if 0 in on then caps[0] - n else caps[0],
     if 1 in on then caps[1] - n else caps[1],
     if 2 in on then caps[2] - n else caps[2],
     if 3 in on then caps[3] - n else caps[3],
     if 4 in on then caps[4] - n else caps[4]]
  }

  lemma TakenIs(caps: seq<int>, after: seq<int>, on: Path, n: int)
    requires |caps| == 5 && TakenFrom(caps, after, on, n)
    ensures after == Take5(caps, on, n)
  {
  }

  lemma AppliedIs(caps: seq<int>, p: Path, n: int)
    requires |caps| == 5 && InRange(5, p) && Distinct(p)
    ensures Apply(caps, p, n) == Take5(caps, p, n)
  {
    ApplyDistinct(caps, p, n);
    TakenIs(caps, Apply(caps, p, n), p, n);
  }

  /** A reservation whose search finds one itinerary commits it. */
  lemma CommitSole(fl: seq<Flight>, caps: seq<int>, rs: seq<Reservation>, index: nat, p: Path, n: int, after: seq<int>)
    requires |fl| == 5 && |caps| == 5 && index < |rs| && Search(fl, caps, rs[index]) == [p]
    requires rs[index].count == n && Take5(caps, p, n) == after
    ensures ResolveReservation(fl, caps, rs, index) == Outcome(Some(p), after)
  {
    OnlyCandidate(fl, caps, rs, index, p);
    Committed(fl, caps, rs, index, p);
    TakenIs(caps, ResolveReservation(fl, caps, rs, index).caps, p, rs[index].count);
  }

  /** What committing the chosen `p` for `rs[index]` leaves. */
  lemma CommitChosen(fl: seq<Flight>, caps: seq<int>, rs: seq<Reservation>, index: nat, p: Path, n: int, after: seq<int>)
    requires |fl| == 5 && |caps| == 5 && index < |rs| && ResolveReservation(fl, caps, rs, index).chosen == Some(p)
    requires rs[index].count == n && Take5(caps, p, n) == after
    ensures ResolveReservation(fl, caps, rs, index) == Outcome(Some(p), after)
  {
    Committed(fl, caps, rs, index, p);
    TakenIs(caps, ResolveReservation(fl, caps, rs, index).caps, p, rs[index].count);
  }

  // The test "resolve all": the nine reservations of the tests.

  function Reservations(): seq<Reservation>
  {
    [Reservation("PNR01", 3, "A", "B"), Reservation("PNR02", 4, "A", "C"),
     Reservation("PNR04", 8, "A", "B"), Reservation("PNR05", 1, "A", "C"),
     Reservation("PNR06", 1, "A", "B"), Reservation("PNR07", 2, "A", "B"),
     Reservation("PNR08", 2, "A", "C"), Reservation("PNR09", 2, "A", "C"),
     Reservation("PNR10", 4, "C", "B")]
  }

  /** The reservations by descending count, ties in input order. */
  predicate Order(s: seq<Reservation>)
  {
    && |s| == 9
    && s[0] == Reservation("PNR04", 8, "A", "B")
    && s[1] == Reservation("PNR02", 4, "A", "C")
    && s[2] == Reservation("PNR10", 4, "C", "B")
    && s[3] == Reservation("PNR01", 3, "A", "B")
    && s[4] == Reservation("PNR07", 2, "A", "B")
    && s[5] == Reservation("PNR08", 2, "A", "C")
    && s[6] == Reservation("PNR09", 2, "A", "C")
    && s[7] == Reservation("PNR05", 1, "A", "C")
    && s[8] == Reservation("PNR06", 1, "A", "B")
  }

  /** A reservation of `n` seats from `o` to `d`, whatever its id. */
  predicate Trip(r: Reservation, n: int, o: string, d: string)
  {
    r.count == n && r.origin == o && r.destination == d
  }

  /** Sorting inserts each reservation after all those of no smaller count
      sorted so far. */
  lemma SortStep(init: seq<Reservation>, x: Reservation, s: seq<Reservation>, k: nat)
    requires SortByCount(init) == s && k <= |s|
    requires forall i :: 0 <= i < k ==> s[i].count >= x.count
    requires k < |s| ==> s[k].count < x.count
    ensures SortByCount(init + [x]) == s[..k] + [x] + s[k..]
  {
    SortSnoc(init, x);
    InsertAt(s, x, k);
  }

  /** The counts of the reservations, in input order. */
  predicate Counts(v: seq<Reservation>)
  {
    && |v| == 9
    && v[0].count == 3 && v[1].count == 4 && v[2].count == 8 && v[3].count == 1 && v[4].count == 1
    && v[5].count == 2 && v[6].count == 2 && v[7].count == 2 && v[8].count == 4
  }

  lemma SortedUpTo1(v: seq<Reservation>)
    requires Counts(v)
    ensures SortByCount(v[..1]) == [v[0]]
  {
    SortSnoc([], v[0]);
    assert [] + [v[0]] == v[..1];
  }

  lemma SortedUpTo2(v: seq<Reservation>)
    requires Counts(v)
    ensures SortByCount(v[..2]) == [v[1], v[0]]
  {
    SortedUpTo1(v);
    SortStep(v[..1], v[1], [v[0]], 0);
    assert v[..1] + [v[1]] == v[..2];
    assert [v[0]][..0] + [v[1]] + [v[0]][0..] == [v[1], v[0]];
  }

  lemma SortedUpTo3(v: seq<Reservation>)
    requires Counts(v)
    ensures SortByCount(v[..3]) == [v[2], v[1], v[0]]
  {
    SortedUpTo2(v);
    SortStep(v[..2], v[2], [v[1], v[0]], 0);
    assert v[..2] + [v[2]] == v[..3];
    assert [v[1], v[0]][..0] + [v[2]] + [v[1], v[0]][0..] == [v[2], v[1], v[0]];
  }

  lemma SortedUpTo4(v: seq<Reservation>)
    requires Counts(v)
    ensures SortByCount(v[..4]) == [v[2], v[1], v[0], v[3]]
  {
    SortedUpTo3(v);
    SortStep(v[..3], v[3], [v[2], v[1], v[0]], 3);
    assert v[..3] + [v[3]] == v[..4];
    assert [v[2], v[1], v[0]][..3] + [v[3]] + [v[2], v[1], v[0]][3..] == [v[2], v[1], v[0], v[3]];
  }

  lemma SortedUpTo5(v: seq<Reservation>)
    requires Counts(v)
    ensures SortByCount(v[..5]) == [v[2], v[1], v[0], v[3], v[4]]
  {
    SortedUpTo4(v);
    SortStep(v[..4], v[4], [v[2], v[1], v[0], v[3]], 4);
    assert v[..4] + [v[4]] == v[..5];
    assert [v[2], v[1], v[0], v[3]][..4] + [v[4]] + [v[2], v[1], v[0], v[3]][4..] == [v[2], v[1], v[0], v[3], v[4]];
  }

  lemma SortedUpTo6(v: seq<Reservation>)
    requires Counts(v)
    ensures SortByCount(v[..6]) == [v[2], v[1], v[0], v[5], v[3], v[4]]
  {
    SortedUpTo5(v);
    SortStep(v[..5], v[5], [v[2], v[1], v[0], v[3], v[4]], 3);
    assert v[..5] + [v[5]] == v[..6];
    assert [v[2], v[1], v[0], v[3], v[4]][..3] + [v[5]] + [v[2], v[1], v[0], v[3], v[4]][3..] == [v[2], v[1], v[0], v[5], v[3], v[4]];
  }

  lemma SortedUpTo7(v: seq<Reservation>)
    requires Counts(v)
    ensures SortByCount(v[..7]) == [v[2], v[1], v[0], v[5], v[6], v[3], v[4]]
  {
    SortedUpTo6(v);
    SortStep(v[..6], v[6], [v[2], v[1], v[0], v[5], v[3], v[4]], 4);
    assert v[..6] + [v[6]] == v[..7];
    assert [v[2], v[1], v[0], v[5], v[3], v[4]][..4] + [v[6]] + [v[2], v[1], v[0], v[5], v[3], v[4]][4..] == [v[2], v[1], v[0], v[5], v[6], v[3], v[4]];
  }

  lemma SortedUpTo8(v: seq<Reservation>)
    requires Counts(v)
    ensures SortByCount(v[..8]) == [v[2], v[1], v[0], v[5], v[6], v[7], v[3], v[4]]
  {
    SortedUpTo7(v);
    SortStep(v[..7], v[7], [v[2], v[1], v[0], v[5], v[6], v[3], v[4]], 5);
    assert v[..7] + [v[7]] == v[..8];
    assert [v[2], v[1], v[0], v[5], v[6], v[3], v[4]][..5] + [v[7]] + [v[2], v[1], v[0], v[5], v[6], v[3], v[4]][5..] == [v[2], v[1], v[0], v[5], v[6], v[7], v[3], v[4]];
  }

  lemma SortedUpTo9(v: seq<Reservation>)
    requires Counts(v)
    ensures SortByCount(v[..9]) == [v[2], v[1], v[8], v[0], v[5], v[6], v[7], v[3], v[4]]
  {
    SortedUpTo8(v);
    SortStep(v[..8], v[8], [v[2], v[1], v[0], v[5], v[6], v[7], v[3], v[4]], 2);
    assert v[..8] + [v[8]] == v[..9];
    assert [v[2], v[1], v[0], v[5], v[6], v[7], v[3], v[4]][..2] + [v[8]] + [v[2], v[1], v[0], v[5], v[6], v[7], v[3], v[4]][2..] == [v[2], v[1], v[8], v[0], v[5], v[6], v[7], v[3], v[4]];
  }

  /** PNR04 first, then PNR02 and PNR10 in input order, PNR01, the three of
      two seats and the two of one seat, each group in input order. */
  lemma Sorted(rs: seq<Reservation>)
    requires rs == Reservations()
    ensures Order(SortByCount(rs))
  {
    SortedUpTo9(rs);
    assert rs[..9] == rs;
  }

  // Scoring, for the two reservations that get a choice.

  /** A reservation that some itinerary on these flights can seat. */
  predicate Served(caps: seq<int>, r: Reservation)
    requires |caps| == 5
  {
    || (r.origin == "A" && r.destination == "B" &&
        (caps[0] >= r.count || caps[1] >= r.count ||
         (caps[2] >= r.count && caps[3] >= r.count) || (caps[4] >= r.count && caps[3] >= r.count)))
    || (r.origin == "A" && r.destination == "C" && (caps[2] >= r.count || caps[4] >= r.count))
    || (r.origin == "C" && r.destination == "B" && caps[3] >= r.count)
  }

  lemma ServedFinds(fl: seq<Flight>, caps: seq<int>, r: Reservation)
    requires Searches(fl) && |caps| == 5 && Served(caps, r)
    ensures |Search(fl, caps, r)| > 0
  {
    assert Search(fl, caps, r) == Offers(caps, r);
  }

  /** A served reservation adds nothing to the unresolved seats of those
      after it. */
  lemma ServedStep(fl: seq<Flight>, caps: seq<int>, rs: seq<Reservation>, from: nat)
    requires Searches(fl) && |caps| == 5 && from < |rs|
    requires Served(caps, rs[from]) && Unresolved(fl, caps, rs[from + 1..]) == 0
    ensures Unresolved(fl, caps, rs[from..]) == 0
  {
    ServedFinds(fl, caps, rs[from]);
    assert rs[from..][0] == rs[from] && rs[from..][1..] == rs[from + 1..];
  }

  /** Nobody from PNR07 on is left unresolved when all are served. */
  lemma ServedFromFifth(fl: seq<Flight>, caps: seq<int>, sorted: seq<Reservation>)
    requires Searches(fl) && |caps| == 5 && Order(sorted)
    requires Served(caps, sorted[4]) && Served(caps, sorted[5]) && Served(caps, sorted[6])
    requires Served(caps, sorted[7]) && Served(caps, sorted[8])
    ensures Unresolved(fl, caps, sorted[4..]) == 0
  {
    assert sorted[9..] == [];
    ServedStep(fl, caps, sorted, 8);
    ServedStep(fl, caps, sorted, 7);
    ServedStep(fl, caps, sorted, 6);
    ServedStep(fl, caps, sorted, 5);
    ServedStep(fl, caps, sorted, 4);
  }

  /** If PNR02 takes F4, the seven later reservations are all served. */
  lemma ScoreSecondF4(fl: seq<Flight>, sorted: seq<Reservation>)
    requires Searches(fl) && Order(sorted)
    ensures Score(fl, [0, 4, 5, 7, 6], sorted, 1, [2]) == 0
  {
    AppliedIs([0, 4, 5, 7, 6], [2], 4);
    LaterServed(fl, [0, 4, 1, 7, 6], sorted);
  }

  /** If PNR02 takes F6, they are all served too. */
  lemma ScoreSecondF6(fl: seq<Flight>, sorted: seq<Reservation>)
    requires Searches(fl) && Order(sorted)
    ensures Score(fl, [0, 4, 5, 7, 6], sorted, 1, [4]) == 0
  {
    AppliedIs([0, 4, 5, 7, 6], [4], 4);
    LaterServed(fl, [0, 4, 5, 7, 2], sorted);
  }

  lemma LaterServed(fl: seq<Flight>, caps: seq<int>, sorted: seq<Reservation>)
    requires Searches(fl) && |caps| == 5 && Order(sorted)
    requires caps[3] >= 4 && caps[1] >= 3 && (caps[2] >= 2 || caps[4] >= 2)
    ensures Unresolved(fl, caps, sorted[2..]) == 0
  {
    ServedFromFifth(fl, caps, sorted);
    ServedStep(fl, caps, sorted, 3);
    ServedStep(fl, caps, sorted, 2);
  }

  /** If PNR01 takes F2, the five later reservations are all served. */
  lemma ScoreFourthF2(fl: seq<Flight>, sorted: seq<Reservation>)
    requires Searches(fl) && Order(sorted)
    ensures Score(fl, [0, 4, 1, 3, 6], sorted, 3, [1]) == 0
  {
    AppliedIs([0, 4, 1, 3, 6], [1], 3);
    ServedFromFifth(fl, [0, 1, 1, 3, 6], sorted);
  }

  /** If PNR01 takes F6 and F5, they are all served too. */
  lemma ScoreFourthF6F5(fl: seq<Flight>, sorted: seq<Reservation>)
    requires Searches(fl) && Order(sorted)
    ensures InRange(5, [4, 3])
    ensures Score(fl, [0, 4, 1, 3, 6], sorted, 3, [4, 3]) == 0
  {
    AppliedF6F5();
    ServedFromFifth(fl, [0, 4, 1, 0, 3], sorted);
  }

  lemma AppliedF6F5()
    ensures InRange(5, [4, 3])
    ensures Apply([0, 4, 1, 3, 6], [4, 3], 3) == [0, 4, 1, 0, 3]
  {
    assert Distinct([4, 3]);
    AppliedIs([0, 4, 1, 3, 6], [4, 3], 3);
  }

  // The run, one reservation at a time.

  /** PNR04, eight seats from A to B: only F1 has room. */
  lemma SearchFirst(fl: seq<Flight>, res: Reservation)
    requires Searches(fl) && Trip(res, 8, "A", "B")
    ensures Search(fl, [8, 4, 5, 7, 6], res) == [[0]]
  {
    Searched(fl, [8, 4, 5, 7, 6], res);
    OnlyF1([8, 4, 5, 7, 6], res);
  }

  lemma RunFirst(fl: seq<Flight>, sorted: seq<Reservation>)
    requires |fl| == 5 && |sorted| == 9 && sorted[0].count == 8
    requires Search(fl, [8, 4, 5, 7, 6], sorted[0]) == [[0]]
    ensures ResolveReservation(fl, [8, 4, 5, 7, 6], sorted, 0) == Outcome(Some([0]), [0, 4, 5, 7, 6])
  {
    TakeFirst();
    CommitSole(fl, [8, 4, 5, 7, 6], sorted, 0, [0], 8, [0, 4, 5, 7, 6]);
  }

  lemma TakeFirst()
    ensures Take5([8, 4, 5, 7, 6], [0], 8) == [0, 4, 5, 7, 6]
  {
  }

  /** PNR02, four seats from A to C: F4 and F6 both strand nobody, and F4
      has fewer seats. */
  lemma ChoiceSecond(fl: seq<Flight>, sorted: seq<Reservation>)
    requires Searches(fl) && Order(sorted)
    ensures ResolveReservation(fl, [0, 4, 5, 7, 6], sorted, 1).chosen == Some([2])
  {
    SearchSecond(fl, sorted[1]);
    ScoreSecondF4(fl, sorted);
    ScoreSecondF6(fl, sorted);
    PickSecond(fl, sorted);
  }

  lemma FewerSecond()
    ensures InRange(5, [2]) && InRange(5, [4])
    ensures TotalCapacity([0, 4, 5, 7, 6], [2]) <= TotalCapacity([0, 4, 5, 7, 6], [4])
  {
    var caps := [0, 4, 5, 7, 6];
    Total1(caps, 2);
    Total1(caps, 4);
  }

  lemma PickSecond(fl: seq<Flight>, sorted: seq<Reservation>)
    requires |fl| == 5 && |sorted| == 9 && Search(fl, [0, 4, 5, 7, 6], sorted[1]) == [[2], [4]]
    requires Score(fl, [0, 4, 5, 7, 6], sorted, 1, [2]) == 0 && Score(fl, [0, 4, 5, 7, 6], sorted, 1, [4]) == 0
    ensures ResolveReservation(fl, [0, 4, 5, 7, 6], sorted, 1).chosen == Some([2])
  {
    FewerSecond();
    PickFirst(fl, [0, 4, 5, 7, 6], sorted, 1, [2], [4]);
  }

  lemma RunSecond(fl: seq<Flight>, sorted: seq<Reservation>)
    requires |fl| == 5 && |sorted| == 9 && sorted[1].count == 4
    requires ResolveReservation(fl, [0, 4, 5, 7, 6], sorted, 1).chosen == Some([2])
    ensures ResolveReservation(fl, [0, 4, 5, 7, 6], sorted, 1) == Outcome(Some([2]), [0, 4, 1, 7, 6])
  {
    TakeSecond();
    CommitChosen(fl, [0, 4, 5, 7, 6], sorted, 1, [2], 4, [0, 4, 1, 7, 6]);
  }

  lemma TakeSecond()
    ensures Take5([0, 4, 5, 7, 6], [2], 4) == [0, 4, 1, 7, 6]
  {
  }

  /** PNR10, four seats from C to B: F5. */
  lemma SearchThird(fl: seq<Flight>, res: Reservation)
    requires Searches(fl) && Trip(res, 4, "C", "B")
    ensures Search(fl, [0, 4, 1, 7, 6], res) == [[3]]
  {
    Searched(fl, [0, 4, 1, 7, 6], res);
    OnlyF5([0, 4, 1, 7, 6], res);
  }

  lemma RunThird(fl: seq<Flight>, sorted: seq<Reservation>)
    requires |fl| == 5 && |sorted| == 9 && sorted[2].count == 4
    requires Search(fl, [0, 4, 1, 7, 6], sorted[2]) == [[3]]
    ensures ResolveReservation(fl, [0, 4, 1, 7, 6], sorted, 2) == Outcome(Some([3]), [0, 4, 1, 3, 6])
  {
    TakeThird();
    CommitSole(fl, [0, 4, 1, 7, 6], sorted, 2, [3], 4, [0, 4, 1, 3, 6]);
  }

  lemma TakeThird()
    ensures Take5([0, 4, 1, 7, 6], [3], 4) == [0, 4, 1, 3, 6]
  {
  }

  /** PNR01, three seats from A to B: F2, or F6 and F5; both strand
      nobody, and F2 has fewer seats. */
  lemma ChoiceFourth(fl: seq<Flight>, sorted: seq<Reservation>)
    requires Searches(fl) && Order(sorted)
    ensures ResolveReservation(fl, [0, 4, 1, 3, 6], sorted, 3).chosen == Some([1])
  {
    SearchFourth(fl, sorted[3]);
    ScoreFourthF2(fl, sorted);
    ScoreFourthF6F5(fl, sorted);
    PickFourth(fl, sorted);
  }

  lemma FewerFourth()
    ensures InRange(5, [1]) && InRange(5, [4, 3])
    ensures TotalCapacity([0, 4, 1, 3, 6], [1]) <= TotalCapacity([0, 4, 1, 3, 6], [4, 3])
  {
    var caps := [0, 4, 1, 3, 6];
    Total1(caps, 1);
    Total2(caps, 4, 3);
  }

  lemma PickFourth(fl: seq<Flight>, sorted: seq<Reservation>)
    requires |fl| == 5 && |sorted| == 9 && Search(fl, [0, 4, 1, 3, 6], sorted[3]) == [[1], [4, 3]]
    requires Score(fl, [0, 4, 1, 3, 6], sorted, 3, [1]) == 0 && Score(fl, [0, 4, 1, 3, 6], sorted, 3, [4, 3]) == 0
    ensures ResolveReservation(fl, [0, 4, 1, 3, 6], sorted, 3).chosen == Some([1])
  {
    FewerFourth();
    PickFirst(fl, [0, 4, 1, 3, 6], sorted, 3, [1], [4, 3]);
  }

  lemma RunFourth(fl: seq<Flight>, sorted: seq<Reservation>)
    requires |fl| == 5 && |sorted| == 9 && sorted[3].count == 3
    requires ResolveReservation(fl, [0, 4, 1, 3, 6], sorted, 3).chosen == Some([1])
    ensures ResolveReservation(fl, [0, 4, 1, 3, 6], sorted, 3) == Outcome(Some([1]), [0, 1, 1, 3, 6])
  {
    TakeFourth();
    CommitChosen(fl, [0, 4, 1, 3, 6], sorted, 3, [1], 3, [0, 1, 1, 3, 6]);
  }

  lemma TakeFourth()
    ensures Take5([0, 4, 1, 3, 6], [1], 3) == [0, 1, 1, 3, 6]
  {
  }

  /** PNR07, two seats from A to B: only F6 and F5 are left. */
  lemma SearchFifth(fl: seq<Flight>, res: Reservation)
    requires Searches(fl) && Trip(res, 2, "A", "B")
    ensures Search(fl, [0, 1, 1, 3, 6], res) == [[4, 3]]
  {
    Searched(fl, [0, 1, 1, 3, 6], res);
    OnlyViaF6([0, 1, 1, 3, 6], res);
  }

  lemma RunFifth(fl: seq<Flight>, sorted: seq<Reservation>)
    requires |fl| == 5 && |sorted| == 9 && sorted[4].count == 2
    requires Search(fl, [0, 1, 1, 3, 6], sorted[4]) == [[4, 3]]
    ensures ResolveReservation(fl, [0, 1, 1, 3, 6], sorted, 4) == Outcome(Some([4, 3]), [0, 1, 1, 1, 4])
  {
    TakeFifth();
    CommitSole(fl, [0, 1, 1, 3, 6], sorted, 4, [4, 3], 2, [0, 1, 1, 1, 4]);
  }

  lemma TakeFifth()
    ensures Take5([0, 1, 1, 3, 6], [4, 3], 2) == [0, 1, 1, 1, 4]
  {
  }

  /** PNR08, two seats from A to C: only F6 has room. */
  lemma SearchSixth(fl: seq<Flight>, res: Reservation)
    requires Searches(fl) && Trip(res, 2, "A", "C")
    ensures Search(fl, [0, 1, 1, 1, 4], res) == [[4]]
  {
    Searched(fl, [0, 1, 1, 1, 4], res);
    OnlyF6([0, 1, 1, 1, 4], res);
  }

  lemma RunSixth(fl: seq<Flight>, sorted: seq<Reservation>)
    requires |fl| == 5 && |sorted| == 9 && sorted[5].count == 2
    requires Search(fl, [0, 1, 1, 1, 4], sorted[5]) == [[4]]
    ensures ResolveReservation(fl, [0, 1, 1, 1, 4], sorted, 5) == Outcome(Some([4]), [0, 1, 1, 1, 2])
  {
    TakeSixth();
    CommitSole(fl, [0, 1, 1, 1, 4], sorted, 5, [4], 2, [0, 1, 1, 1, 2]);
  }

  lemma TakeSixth()
    ensures Take5([0, 1, 1, 1, 4], [4], 2) == [0, 1, 1, 1, 2]
  {
  }

  /** PNR09, two seats from A to C: F6 again. */
  lemma SearchSeventh(fl: seq<Flight>, res: Reservation)
    requires Searches(fl) && Trip(res, 2, "A", "C")
    ensures Search(fl, [0, 1, 1, 1, 2], res) == [[4]]
  {
    Searched(fl, [0, 1, 1, 1, 2], res);
    OnlyF6([0, 1, 1, 1, 2], res);
  }

  lemma RunSeventh(fl: seq<Flight>, sorted: seq<Reservation>)
    requires |fl| == 5 && |sorted| == 9 && sorted[6].count == 2
    requires Search(fl, [0, 1, 1, 1, 2], sorted[6]) == [[4]]
    ensures ResolveReservation(fl, [0, 1, 1, 1, 2], sorted, 6) == Outcome(Some([4]), [0, 1, 1, 1, 0])
  {
    TakeSeventh();
    CommitSole(fl, [0, 1, 1, 1, 2], sorted, 6, [4], 2, [0, 1, 1, 1, 0]);
  }

  lemma TakeSeventh()
    ensures Take5([0, 1, 1, 1, 2], [4], 2) == [0, 1, 1, 1, 0]
  {
  }

  /** PNR05, one seat from A to C: F4. */
  lemma SearchEighth(fl: seq<Flight>, res: Reservation)
    requires Searches(fl) && Trip(res, 1, "A", "C")
    ensures Search(fl, [0, 1, 1, 1, 0], res) == [[2]]
  {
    Searched(fl, [0, 1, 1, 1, 0], res);
    OnlyF4([0, 1, 1, 1, 0], res);
  }

  lemma RunEighth(fl: seq<Flight>, sorted: seq<Reservation>)
    requires |fl| == 5 && |sorted| == 9 && sorted[7].count == 1
    requires Search(fl, [0, 1, 1, 1, 0], sorted[7]) == [[2]]
    ensures ResolveReservation(fl, [0, 1, 1, 1, 0], sorted, 7) == Outcome(Some([2]), [0, 1, 0, 1, 0])
  {
    TakeEighth();
    CommitSole(fl, [0, 1, 1, 1, 0], sorted, 7, [2], 1, [0, 1, 0, 1, 0]);
  }

  lemma TakeEighth()
    ensures Take5([0, 1, 1, 1, 0], [2], 1) == [0, 1, 0, 1, 0]
  {
  }

  /** PNR06, one seat from A to B: F2's last seat. */
  lemma SearchNinth(fl: seq<Flight>, res: Reservation)
    requires Searches(fl) && Trip(res, 1, "A", "B")
    ensures Search(fl, [0, 1, 0, 1, 0], res) == [[1]]
  {
    Searched(fl, [0, 1, 0, 1, 0], res);
    OnlyF2([0, 1, 0, 1, 0], res);
  }

  lemma RunNinth(fl: seq<Flight>, sorted: seq<Reservation>)
    requires |fl| == 5 && |sorted| == 9 && sorted[8].count == 1
    requires Search(fl, [0, 1, 0, 1, 0], sorted[8]) == [[1]]
    ensures ResolveReservation(fl, [0, 1, 0, 1, 0], sorted, 8) == Outcome(Some([1]), [0, 0, 0, 1, 0])
  {
    TakeNinth();
    CommitSole(fl, [0, 1, 0, 1, 0], sorted, 8, [1], 1, [0, 0, 0, 1, 0]);
  }

  lemma TakeNinth()
    ensures Take5([0, 1, 0, 1, 0], [1], 1) == [0, 0, 0, 1, 0]
  {
  }

  /** The entries of the run: the committed itineraries, in processing
      order. */
  predicate RunEntries(sorted: seq<Reservation>, e: seq<Entry>)
  {
    && |sorted| == 9 && |e| == 9
    && e[0] == Entry(sorted[0], Some([0])) && e[1] == Entry(sorted[1], Some([2]))
    && e[2] == Entry(sorted[2], Some([3])) && e[3] == Entry(sorted[3], Some([1]))
    && e[4] == Entry(sorted[4], Some([4, 3])) && e[5] == Entry(sorted[5], Some([4]))
    && e[6] == Entry(sorted[6], Some([4])) && e[7] == Entry(sorted[7], Some([2]))
    && e[8] == Entry(sorted[8], Some([1]))
  }

  // The loop of resolveAll from each reservation on, given the step it
  // takes there and the run after it; `e` stands for the entries of the run.

  lemma RunFrom0(fl: seq<Flight>, sorted: seq<Reservation>, e: seq<Entry>)
    requires |fl| == 5 && |sorted| == 9 && |e| == 9 && e[0] == Entry(sorted[0], Some([0]))
    requires ResolveReservation(fl, [8, 4, 5, 7, 6], sorted, 0) == Outcome(Some([0]), [0, 4, 5, 7, 6])
    requires ResolveFrom(fl, [0, 4, 5, 7, 6], sorted, 1) == Resolution(e[1..], [0, 0, 0, 1, 0])
    ensures ResolveFrom(fl, [8, 4, 5, 7, 6], sorted, 0) == Resolution(e, [0, 0, 0, 1, 0])
  {
    RunStart(fl, [8, 4, 5, 7, 6], sorted, Some([0]), [0, 4, 5, 7, 6], e, [0, 0, 0, 1, 0]);
  }

  lemma RunFrom1(fl: seq<Flight>, sorted: seq<Reservation>, e: seq<Entry>)
    requires |fl| == 5 && |sorted| == 9 && |e| == 9 && e[1] == Entry(sorted[1], Some([2]))
    requires ResolveReservation(fl, [0, 4, 5, 7, 6], sorted, 1) == Outcome(Some([2]), [0, 4, 1, 7, 6])
    requires ResolveFrom(fl, [0, 4, 1, 7, 6], sorted, 2) == Resolution(e[2..], [0, 0, 0, 1, 0])
    ensures ResolveFrom(fl, [0, 4, 5, 7, 6], sorted, 1) == Resolution(e[1..], [0, 0, 0, 1, 0])
  {
    RunStep(fl, [0, 4, 5, 7, 6], sorted, 1, Some([2]), [0, 4, 1, 7, 6], e, [0, 0, 0, 1, 0]);
  }

  lemma RunFrom2(fl: seq<Flight>, sorted: seq<Reservation>, e: seq<Entry>)
    requires |fl| == 5 && |sorted| == 9 && |e| == 9 && e[2] == Entry(sorted[2], Some([3]))
    requires ResolveReservation(fl, [0, 4, 1, 7, 6], sorted, 2) == Outcome(Some([3]), [0, 4, 1, 3, 6])
    requires ResolveFrom(fl, [0, 4, 1, 3, 6], sorted, 3) == Resolution(e[3..], [0, 0, 0, 1, 0])
    ensures ResolveFrom(fl, [0, 4, 1, 7, 6], sorted, 2) == Resolution(e[2..], [0, 0, 0, 1, 0])
  {
    RunStep(fl, [0, 4, 1, 7, 6], sorted, 2, Some([3]), [0, 4, 1, 3, 6], e, [0, 0, 0, 1, 0]);
  }

  lemma RunFrom3(fl: seq<Flight>, sorted: seq<Reservation>, e: seq<Entry>)
    requires |fl| == 5 && |sorted| == 9 && |e| == 9 && e[3] == Entry(sorted[3], Some([1]))
    requires ResolveReservation(fl, [0, 4, 1, 3, 6], sorted, 3) == Outcome(Some([1]), [0, 1, 1, 3, 6])
    requires ResolveFrom(fl, [0, 1, 1, 3, 6], sorted, 4) == Resolution(e[4..], [0, 0, 0, 1, 0])
    ensures ResolveFrom(fl, [0, 4, 1, 3, 6], sorted, 3) == Resolution(e[3..], [0, 0, 0, 1, 0])
  {
    RunStep(fl, [0, 4, 1, 3, 6], sorted, 3, Some([1]), [0, 1, 1, 3, 6], e, [0, 0, 0, 1, 0]);
  }

  lemma RunFrom4(fl: seq<Flight>, sorted: seq<Reservation>, e: seq<Entry>)
    requires |fl| == 5 && |sorted| == 9 && |e| == 9 && e[4] == Entry(sorted[4], Some([4, 3]))
    requires ResolveReservation(fl, [0, 1, 1, 3, 6], sorted, 4) == Outcome(Some([4, 3]), [0, 1, 1, 1, 4])
    requires ResolveFrom(fl, [0, 1, 1, 1, 4], sorted, 5) == Resolution(e[5..], [0, 0, 0, 1, 0])
    ensures ResolveFrom(fl, [0, 1, 1, 3, 6], sorted, 4) == Resolution(e[4..], [0, 0, 0, 1, 0])
  {
    RunStep(fl, [0, 1, 1, 3, 6], sorted, 4, Some([4, 3]), [0, 1, 1, 1, 4], e, [0, 0, 0, 1, 0]);
  }

  lemma RunFrom5(fl: seq<Flight>, sorted: seq<Reservation>, e: seq<Entry>)
    requires |fl| == 5 && |sorted| == 9 && |e| == 9 && e[5] == Entry(sorted[5], Some([4]))
    requires ResolveReservation(fl, [0, 1, 1, 1, 4], sorted, 5) == Outcome(Some([4]), [0, 1, 1, 1, 2])
    requires ResolveFrom(fl, [0, 1, 1, 1, 2], sorted, 6) == Resolution(e[6..], [0, 0, 0, 1, 0])
    ensures ResolveFrom(fl, [0, 1, 1, 1, 4], sorted, 5) == Resolution(e[5..], [0, 0, 0, 1, 0])
  {
    RunStep(fl, [0, 1, 1, 1, 4], sorted, 5, Some([4]), [0, 1, 1, 1, 2], e, [0, 0, 0, 1, 0]);
  }

  lemma RunFrom6(fl: seq<Flight>, sorted: seq<Reservation>, e: seq<Entry>)
    requires |fl| == 5 && |sorted| == 9 && |e| == 9 && e[6] == Entry(sorted[6], Some([4]))
    requires ResolveReservation(fl, [0, 1, 1, 1, 2], sorted, 6) == Outcome(Some([4]), [0, 1, 1, 1, 0])
    requires ResolveFrom(fl, [0, 1, 1, 1, 0], sorted, 7) == Resolution(e[7..], [0, 0, 0, 1, 0])
    ensures ResolveFrom(fl, [0, 1, 1, 1, 2], sorted, 6) == Resolution(e[6..], [0, 0, 0, 1, 0])
  {
    RunStep(fl, [0, 1, 1, 1, 2], sorted, 6, Some([4]), [0, 1, 1, 1, 0], e, [0, 0, 0, 1, 0]);
  }

  lemma RunFrom7(fl: seq<Flight>, sorted: seq<Reservation>, e: seq<Entry>)
    requires |fl| == 5 && |sorted| == 9 && |e| == 9 && e[7] == Entry(sorted[7], Some([2]))
    requires ResolveReservation(fl, [0, 1, 1, 1, 0], sorted, 7) == Outcome(Some([2]), [0, 1, 0, 1, 0])
    requires ResolveFrom(fl, [0, 1, 0, 1, 0], sorted, 8) == Resolution(e[8..], [0, 0, 0, 1, 0])
    ensures ResolveFrom(fl, [0, 1, 1, 1, 0], sorted, 7) == Resolution(e[7..], [0, 0, 0, 1, 0])
  {
    RunStep(fl, [0, 1, 1, 1, 0], sorted, 7, Some([2]), [0, 1, 0, 1, 0], e, [0, 0, 0, 1, 0]);
  }

  lemma RunFrom8(fl: seq<Flight>, sorted: seq<Reservation>, e: seq<Entry>)
    requires |fl| == 5 && |sorted| == 9 && |e| == 9 && e[8] == Entry(sorted[8], Some([1]))
    requires ResolveReservation(fl, [0, 1, 0, 1, 0], sorted, 8) == Outcome(Some([1]), [0, 0, 0, 1, 0])
    ensures ResolveFrom(fl, [0, 1, 0, 1, 0], sorted, 8) == Resolution(e[8..], [0, 0, 0, 1, 0])
  {
    RunEnd(fl, [0, 0, 0, 1, 0], sorted, e);
    RunStep(fl, [0, 1, 0, 1, 0], sorted, 8, Some([1]), [0, 0, 0, 1, 0], e, [0, 0, 0, 1, 0]);
  }

  /** The whole run: every reservation finds an itinerary, and only F5
      keeps a seat. */
  lemma Run(fl: seq<Flight>, sorted: seq<Reservation>, e: seq<Entry>)
    requires Searches(fl) && Order(sorted) && RunEntries(sorted, e)
    ensures ResolveFrom(fl, [8, 4, 5, 7, 6], sorted, 0) == Resolution(e, [0, 0, 0, 1, 0])
  {
    SearchNinth(fl, sorted[8]);
    RunNinth(fl, sorted);
    RunFrom8(fl, sorted, e);
    SearchEighth(fl, sorted[7]);
    RunEighth(fl, sorted);
    RunFrom7(fl, sorted, e);
    SearchSeventh(fl, sorted[6]);
    RunSeventh(fl, sorted);
    RunFrom6(fl, sorted, e);
    SearchSixth(fl, sorted[5]);
    RunSixth(fl, sorted);
    RunFrom5(fl, sorted, e);
    SearchFifth(fl, sorted[4]);
    RunFifth(fl, sorted);
    RunFrom4(fl, sorted, e);
    ChoiceFourth(fl, sorted);
    RunFourth(fl, sorted);
    RunFrom3(fl, sorted, e);
    SearchThird(fl, sorted[2]);
    RunThird(fl, sorted);
    RunFrom2(fl, sorted, e);
    ChoiceSecond(fl, sorted);
    RunSecond(fl, sorted);
    RunFrom1(fl, sorted, e);
    SearchFirst(fl, sorted[0]);
    RunFirst(fl, sorted);
    RunFrom0(fl, sorted, e);
  }

  /** The ids of the flights of each committed itinerary. */
  lemma IdsAll(fl: seq<Flight>)
    requires Labels(fl)
    ensures Ids(fl, [0]) == ["F1"] && Ids(fl, [1]) == ["F2"] && Ids(fl, [2]) == ["F4"]
    ensures Ids(fl, [3]) == ["F5"] && Ids(fl, [4]) == ["F6"] && Ids(fl, [4, 3]) == ["F6", "F5"]
  {
    IdsOne(fl, 0);
    IdsOne(fl, 1);
    IdsOne(fl, 2);
    IdsOne(fl, 3);
    IdsOne(fl, 4);
    IdsTwo(fl, 4, 3);
  }

  // The result object from each entry on, built from the last entry back.

  lemma ResultFrom8(fl: seq<Flight>, e: seq<Entry>)
    requires |e| == 9 && EntriesInRange(|fl|, e) && e[8].reservation.id == "PNR06" && Resolved(fl, e[8]) == Some(["F2"])
    ensures ResultMap(fl, e[8..]) == map[]["PNR06" := Some(["F2"])]
  {
    assert ResultMap(fl, e[9..]) == map[];
    ResultStepAt(fl, e, 8, map[], "PNR06", Some(["F2"]));
  }

  lemma NewKey7()
    ensures "PNR05" !in map[]["PNR06" := Some(["F2"])]
  {
  }

  lemma ResultFrom7(fl: seq<Flight>, e: seq<Entry>)
    requires |e| == 9 && EntriesInRange(|fl|, e) && e[7].reservation.id == "PNR05" && Resolved(fl, e[7]) == Some(["F4"])
    requires ResultMap(fl, e[8..]) == map[]["PNR06" := Some(["F2"])]
    ensures ResultMap(fl, e[7..]) == map[]["PNR06" := Some(["F2"])]["PNR05" := Some(["F4"])]
  {
    NewKey7();
    ResultStepAt(fl, e, 7, map[]["PNR06" := Some(["F2"])], "PNR05", Some(["F4"]));
  }

  lemma NewKey6()
    ensures "PNR09" !in map[]["PNR06" := Some(["F2"])]["PNR05" := Some(["F4"])]
  {
  }

  lemma ResultFrom6(fl: seq<Flight>, e: seq<Entry>)
    requires |e| == 9 && EntriesInRange(|fl|, e) && e[6].reservation.id == "PNR09" && Resolved(fl, e[6]) == Some(["F6"])
    requires ResultMap(fl, e[7..]) == map[]["PNR06" := Some(["F2"])]["PNR05" := Some(["F4"])]
    ensures ResultMap(fl, e[6..]) == map[]["PNR06" := Some(["F2"])]["PNR05" := Some(["F4"])]["PNR09" := Some(["F6"])]
  {
    NewKey6();
    ResultStepAt(fl, e, 6, map[]["PNR06" := Some(["F2"])]["PNR05" := Some(["F4"])], "PNR09", Some(["F6"]));
  }

  lemma NewKey5()
    ensures "PNR08" !in map[]["PNR06" := Some(["F2"])]["PNR05" := Some(["F4"])]["PNR09" := Some(["F6"])]
  {
  }

  lemma ResultFrom5(fl: seq<Flight>, e: seq<Entry>)
    requires |e| == 9 && EntriesInRange(|fl|, e) && e[5].reservation.id == "PNR08" && Resolved(fl, e[5]) == Some(["F6"])
    requires ResultMap(fl, e[6..]) == map[]["PNR06" := Some(["F2"])]["PNR05" := Some(["F4"])]["PNR09" := Some(["F6"])]
    ensures ResultMap(fl, e[5..]) == map[]["PNR06" := Some(["F2"])]["PNR05" := Some(["F4"])]["PNR09" := Some(["F6"])]["PNR08" := Some(["F6"])]
  {
    NewKey5();
    ResultStepAt(fl, e, 5, map[]["PNR06" := Some(["F2"])]["PNR05" := Some(["F4"])]["PNR09" := Some(["F6"])], "PNR08", Some(["F6"]));
  }

  lemma NewKey4()
    ensures "PNR07" !in map[]["PNR06" := Some(["F2"])]["PNR05" := Some(["F4"])]["PNR09" := Some(["F6"])]["PNR08" := Some(["F6"])]
  {
  }

  lemma ResultFrom4(fl: seq<Flight>, e: seq<Entry>)
    requires |e| == 9 && EntriesInRange(|fl|, e) && e[4].reservation.id == "PNR07" && Resolved(fl, e[4]) == Some(["F6", "F5"])
    requires ResultMap(fl, e[5..]) == map[]["PNR06" := Some(["F2"])]["PNR05" := Some(["F4"])]["PNR09" := Some(["F6"])]["PNR08" := Some(["F6"])]
    ensures ResultMap(fl, e[4..]) == map[]["PNR06" := Some(["F2"])]["PNR05" := Some(["F4"])]["PNR09" := Some(["F6"])]["PNR08" := Some(["F6"])]["PNR07" := Some(["F6", "F5"])]
  {
    NewKey4();
    ResultStepAt(fl, e, 4, map[]["PNR06" := Some(["F2"])]["PNR05" := Some(["F4"])]["PNR09" := Some(["F6"])]["PNR08" := Some(["F6"])], "PNR07", Some(["F6", "F5"]));
  }

  lemma NewKey3()
    ensures "PNR01" !in map[]["PNR06" := Some(["F2"])]["PNR05" := Some(["F4"])]["PNR09" := Some(["F6"])]["PNR08" := Some(["F6"])]["PNR07" := Some(["F6", "F5"])]
  {
  }

  lemma ResultFrom3(fl: seq<Flight>, e: seq<Entry>)
    requires |e| == 9 && EntriesInRange(|fl|, e) && e[3].reservation.id == "PNR01" && Resolved(fl, e[3]) == Some(["F2"])
    requires ResultMap(fl, e[4..]) == map[]["PNR06" := Some(["F2"])]["PNR05" := Some(["F4"])]["PNR09" := Some(["F6"])]["PNR08" := Some(["F6"])]["PNR07" := Some(["F6", "F5"])]
    ensures ResultMap(fl, e[3..]) == map[]["PNR06" := Some(["F2"])]["PNR05" := Some(["F4"])]["PNR09" := Some(["F6"])]["PNR08" := Some(["F6"])]["PNR07" := Some(["F6", "F5"])]["PNR01" := Some(["F2"])]
  {
    NewKey3();
    ResultStepAt(fl, e, 3, map[]["PNR06" := Some(["F2"])]["PNR05" := Some(["F4"])]["PNR09" := Some(["F6"])]["PNR08" := Some(["F6"])]["PNR07" := Some(["F6", "F5"])], "PNR01", Some(["F2"]));
  }

  lemma NewKey2()
    ensures "PNR10" !in map[]["PNR06" := Some(["F2"])]["PNR05" := Some(["F4"])]["PNR09" := Some(["F6"])]["PNR08" := Some(["F6"])]["PNR07" := Some(["F6", "F5"])]["PNR01" := Some(["F2"])]
  {
  }

  lemma ResultFrom2(fl: seq<Flight>, e: seq<Entry>)
    requires |e| == 9 && EntriesInRange(|fl|, e) && e[2].reservation.id == "PNR10" && Resolved(fl, e[2]) == Some(["F5"])
    requires ResultMap(fl, e[3..]) == map[]["PNR06" := Some(["F2"])]["PNR05" := Some(["F4"])]["PNR09" := Some(["F6"])]["PNR08" := Some(["F6"])]["PNR07" := Some(["F6", "F5"])]["PNR01" := Some(["F2"])]
    ensures ResultMap(fl, e[2..]) == map[]["PNR06" := Some(["F2"])]["PNR05" := Some(["F4"])]["PNR09" := Some(["F6"])]["PNR08" := Some(["F6"])]["PNR07" := Some(["F6", "F5"])]["PNR01" := Some(["F2"])]["PNR10" := Some(["F5"])]
  {
    NewKey2();
    ResultStepAt(fl, e, 2, map[]["PNR06" := Some(["F2"])]["PNR05" := Some(["F4"])]["PNR09" := Some(["F6"])]["PNR08" := Some(["F6"])]["PNR07" := Some(["F6", "F5"])]["PNR01" := Some(["F2"])], "PNR10", Some(["F5"]));
  }

  lemma NewKey1()
    ensures "PNR02" !in map[]["PNR06" := Some(["F2"])]["PNR05" := Some(["F4"])]["PNR09" := Some(["F6"])]["PNR08" := Some(["F6"])]["PNR07" := Some(["F6", "F5"])]["PNR01" := Some(["F2"])]["PNR10" := Some(["F5"])]
  {
  }

  lemma ResultFrom1(fl: seq<Flight>, e: seq<Entry>)
    requires |e| == 9 && EntriesInRange(|fl|, e) && e[1].reservation.id == "PNR02" && Resolved(fl, e[1]) == Some(["F4"])
    requires ResultMap(fl, e[2..]) == map[]["PNR06" := Some(["F2"])]["PNR05" := Some(["F4"])]["PNR09" := Some(["F6"])]["PNR08" := Some(["F6"])]["PNR07" := Some(["F6", "F5"])]["PNR01" := Some(["F2"])]["PNR10" := Some(["F5"])]
    ensures ResultMap(fl, e[1..]) == map[]["PNR06" := Some(["F2"])]["PNR05" := Some(["F4"])]["PNR09" := Some(["F6"])]["PNR08" := Some(["F6"])]["PNR07" := Some(["F6", "F5"])]["PNR01" := Some(["F2"])]["PNR10" := Some(["F5"])]["PNR02" := Some(["F4"])]
  {
    NewKey1();
    ResultStepAt(fl, e, 1, map[]["PNR06" := Some(["F2"])]["PNR05" := Some(["F4"])]["PNR09" := Some(["F6"])]["PNR08" := Some(["F6"])]["PNR07" := Some(["F6", "F5"])]["PNR01" := Some(["F2"])]["PNR10" := Some(["F5"])], "PNR02", Some(["F4"]));
  }

  lemma NewKey0()
    ensures "PNR04" !in map[]["PNR06" := Some(["F2"])]["PNR05" := Some(["F4"])]["PNR09" := Some(["F6"])]["PNR08" := Some(["F6"])]["PNR07" := Some(["F6", "F5"])]["PNR01" := Some(["F2"])]["PNR10" := Some(["F5"])]["PNR02" := Some(["F4"])]
  {
  }

  lemma ResultFrom0(fl: seq<Flight>, e: seq<Entry>)
    requires |e| == 9 && EntriesInRange(|fl|, e) && e[0].reservation.id == "PNR04" && Resolved(fl, e[0]) == Some(["F1"])
    requires ResultMap(fl, e[1..]) == map[]["PNR06" := Some(["F2"])]["PNR05" := Some(["F4"])]["PNR09" := Some(["F6"])]["PNR08" := Some(["F6"])]["PNR07" := Some(["F6", "F5"])]["PNR01" := Some(["F2"])]["PNR10" := Some(["F5"])]["PNR02" := Some(["F4"])]
    ensures ResultMap(fl, e) == map[]["PNR06" := Some(["F2"])]["PNR05" := Some(["F4"])]["PNR09" := Some(["F6"])]["PNR08" := Some(["F6"])]["PNR07" := Some(["F6", "F5"])]["PNR01" := Some(["F2"])]["PNR10" := Some(["F5"])]["PNR02" := Some(["F4"])]["PNR04" := Some(["F1"])]
  {
    NewKey0();
    ResultStart(fl, e, map[]["PNR06" := Some(["F2"])]["PNR05" := Some(["F4"])]["PNR09" := Some(["F6"])]["PNR08" := Some(["F6"])]["PNR07" := Some(["F6", "F5"])]["PNR01" := Some(["F2"])]["PNR10" := Some(["F5"])]["PNR02" := Some(["F4"])], "PNR04", Some(["F1"]));
  }

  /** The map built from the last entry back is the one of the test. */
  lemma SameMap()
    ensures map[]["PNR06" := Some(["F2"])]["PNR05" := Some(["F4"])]["PNR09" := Some(["F6"])]["PNR08" := Some(["F6"])]["PNR07" := Some(["F6", "F5"])]["PNR01" := Some(["F2"])]["PNR10" := Some(["F5"])]["PNR02" := Some(["F4"])]["PNR04" := Some(["F1"])] ==
            map["PNR04" := Some(["F1"]), "PNR02" := Some(["F4"]), "PNR10" := Some(["F5"]),
                "PNR01" := Some(["F2"]), "PNR07" := Some(["F6", "F5"]), "PNR08" := Some(["F6"]),
                "PNR09" := Some(["F6"]), "PNR05" := Some(["F4"]), "PNR06" := Some(["F2"])]
  {
  }

  /** The id of each entry of the run. */
  lemma EntryIds(sorted: seq<Reservation>, e: seq<Entry>)
    requires Order(sorted) && RunEntries(sorted, e)
    ensures e[0].reservation.id == "PNR04"
    ensures e[1].reservation.id == "PNR02"
    ensures e[2].reservation.id == "PNR10"
    ensures e[3].reservation.id == "PNR01"
    ensures e[4].reservation.id == "PNR07"
    ensures e[5].reservation.id == "PNR08"
    ensures e[6].reservation.id == "PNR09"
    ensures e[7].reservation.id == "PNR05"
    ensures e[8].reservation.id == "PNR06"
  {
  }

  /** The flight ids of each entry's itinerary. */
  lemma EntryFlights(fl: seq<Flight>, sorted: seq<Reservation>, e: seq<Entry>)
    requires Labels(fl) && RunEntries(sorted, e)
    ensures EntriesInRange(|fl|, e)
    ensures Resolved(fl, e[0]) == Some(["F1"])
    ensures Resolved(fl, e[1]) == Some(["F4"])
    ensures Resolved(fl, e[2]) == Some(["F5"])
    ensures Resolved(fl, e[3]) == Some(["F2"])
    ensures Resolved(fl, e[4]) == Some(["F6", "F5"])
    ensures Resolved(fl, e[5]) == Some(["F6"])
    ensures Resolved(fl, e[6]) == Some(["F6"])
    ensures Resolved(fl, e[7]) == Some(["F4"])
    ensures Resolved(fl, e[8]) == Some(["F2"])
  {
    IdsAll(fl);
  }

  /** The result object, from the entries' ids and flight ids. */
  lemma ResultOf(fl: seq<Flight>, e: seq<Entry>)
    requires |e| == 9 && EntriesInRange(|fl|, e)
    requires e[0].reservation.id == "PNR04" && Resolved(fl, e[0]) == Some(["F1"])
    requires e[1].reservation.id == "PNR02" && Resolved(fl, e[1]) == Some(["F4"])
    requires e[2].reservation.id == "PNR10" && Resolved(fl, e[2]) == Some(["F5"])
    requires e[3].reservation.id == "PNR01" && Resolved(fl, e[3]) == Some(["F2"])
    requires e[4].reservation.id == "PNR07" && Resolved(fl, e[4]) == Some(["F6", "F5"])
    requires e[5].reservation.id == "PNR08" && Resolved(fl, e[5]) == Some(["F6"])
    requires e[6].reservation.id == "PNR09" && Resolved(fl, e[6]) == Some(["F6"])
    requires e[7].reservation.id == "PNR05" && Resolved(fl, e[7]) == Some(["F4"])
    requires e[8].reservation.id == "PNR06" && Resolved(fl, e[8]) == Some(["F2"])
    ensures ResultMap(fl, e) ==
            map["PNR04" := Some(["F1"]), "PNR02" := Some(["F4"]), "PNR10" := Some(["F5"]),
                "PNR01" := Some(["F2"]), "PNR07" := Some(["F6", "F5"]), "PNR08" := Some(["F6"]),
                "PNR09" := Some(["F6"]), "PNR05" := Some(["F4"]), "PNR06" := Some(["F2"])]
  {
    ResultFrom8(fl, e);
    ResultFrom7(fl, e);
    ResultFrom6(fl, e);
    ResultFrom5(fl, e);
    ResultFrom4(fl, e);
    ResultFrom3(fl, e);
    ResultFrom2(fl, e);
    ResultFrom1(fl, e);
    ResultFrom0(fl, e);
    SameMap();
  }

  /** The result object of the run. */
  lemma Result(fl: seq<Flight>, sorted: seq<Reservation>, e: seq<Entry>)
    requires Shape(fl) && Order(sorted) && RunEntries(sorted, e)
    ensures EntriesInRange(|fl|, e)
    ensures ResultMap(fl, e) ==
            map["PNR04" := Some(["F1"]), "PNR02" := Some(["F4"]), "PNR10" := Some(["F5"]),
                "PNR01" := Some(["F2"]), "PNR07" := Some(["F6", "F5"]), "PNR08" := Some(["F6"]),
                "PNR09" := Some(["F6"]), "PNR05" := Some(["F4"]), "PNR06" := Some(["F2"])]
  {
    EntryIds(sorted, e);
    EntryFlights(fl, sorted, e);
    ResultOf(fl, e);
  }

  /** The entries the run yields, one per reservation in sorted order. */
  function Plan(sorted: seq<Reservation>): seq<Entry>
    requires |sorted| == 9
  {
    [Entry(sorted[0], Some([0])), Entry(sorted[1], Some([2])), Entry(sorted[2], Some([3])),
     Entry(sorted[3], Some([1])), Entry(sorted[4], Some([4, 3])), Entry(sorted[5], Some([4])),
     Entry(sorted[6], Some([4])), Entry(sorted[7], Some([2])), Entry(sorted[8], Some([1]))]
  }

  lemma PlanEntries(sorted: seq<Reservation>)
    requires |sorted| == 9
    ensures RunEntries(sorted, Plan(sorted))
  {
  }

  /** The run over the reservations in sorted order, and its result object. */
  lemma Whole(fl: seq<Flight>, sorted: seq<Reservation>)
    requires Shape(fl) && Order(sorted)
    ensures var r := ResolveFrom(fl, [8, 4, 5, 7, 6], sorted, 0);
            && r.caps == [0, 0, 0, 1, 0]
            && EntriesInRange(|fl|, r.entries)
            && ResultMap(fl, r.entries) ==
               map["PNR04" := Some(["F1"]), "PNR02" := Some(["F4"]), "PNR10" := Some(["F5"]),
                   "PNR01" := Some(["F2"]), "PNR07" := Some(["F6", "F5"]), "PNR08" := Some(["F6"]),
                   "PNR09" := Some(["F6"]), "PNR05" := Some(["F4"]), "PNR06" := Some(["F2"])]
  {
    var e := Plan(sorted);
    PlanEntries(sorted);
    NetworkSearches(fl);
    Run(fl, sorted, e);
    Result(fl, sorted, e);
  }

  /** PNR04 is answered with F1, PNR02 with F4, PNR10 with F5, PNR01 with
      F2, PNR07 with F6 and F5, PNR08 and PNR09 with F6, PNR05 with F4 and
      PNR06 with F2; only F5 keeps a seat. */
  lemma ResolveAllScenario(fl: seq<Flight>, caps: seq<int>, rs: seq<Reservation>)
    requires fl == TestFlights() && caps == TestCaps() && |caps| == |fl| && rs == Reservations()
    ensures var r := ResolveAll(fl, caps, rs);
            && r.caps == [0, 0, 0, 1, 0]
            && EntriesInRange(|fl|, r.entries)
            && ResultMap(fl, r.entries) ==
               map["PNR04" := Some(["F1"]), "PNR02" := Some(["F4"]), "PNR10" := Some(["F5"]),
                   "PNR01" := Some(["F2"]), "PNR07" := Some(["F6", "F5"]), "PNR08" := Some(["F6"]),
                   "PNR09" := Some(["F6"]), "PNR05" := Some(["F4"]), "PNR06" := Some(["F2"])]
  {
    ShapeOf(fl);
    Sorted(rs);
    WholeSorted(fl, rs);
  }

  lemma WholeSorted(fl: seq<Flight>, rs: seq<Reservation>)
    requires Shape(fl) && Order(SortByCount(rs))
    ensures var r := ResolveAll(fl, [8, 4, 5, 7, 6], rs);
            && r.caps == [0, 0, 0, 1, 0]
            && EntriesInRange(|fl|, r.entries)
            && ResultMap(fl, r.entries) ==
               map["PNR04" := Some(["F1"]), "PNR02" := Some(["F4"]), "PNR10" := Some(["F5"]),
                   "PNR01" := Some(["F2"]), "PNR07" := Some(["F6", "F5"]), "PNR08" := Some(["F6"]),
                   "PNR09" := Some(["F6"]), "PNR05" := Some(["F4"]), "PNR06" := Some(["F2"])]
  {
    var sorted := SortByCount(rs);
    Whole(fl, sorted);
    assert sorted[0..] == sorted;
  }
}
