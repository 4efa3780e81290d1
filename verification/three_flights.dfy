/** Three tests of resolver.test.js share the flights F1 A->B, F2 B->C and
    F4 A->C, with different seats: "search complex itinerary", "resolve all
    complex itinerary" and "resolve unbalanced flights". The search on these
    flights is characterised once for any capacities; each test is then
    worked out from the general contracts. */
module ThreeFlights {
  import opened Wrappers
  import opened Flights
  import opened ItinerarySearch
  import opened Selection
  import opened Resolution
  import opened Scenarios

  function Flights3(): seq<Flight>
  {
    [Flight("F1", "A", "B"), Flight("F2", "B", "C"), Flight("F4", "A", "C")]
  }

  /** What the runs need to know of the flights. */
  predicate Shape(fl: seq<Flight>)
  {
    && |fl| == 3
    && fl[0].id == "F1" && fl[1].id == "F2" && fl[2].id == "F4"
    && fl[0].origin == "A" && fl[1].origin == "B" && fl[2].origin == "A"
    && fl[0].destination == "B" && fl[1].destination == "C" && fl[2].destination == "C"
    && FlightsByOrigin(fl, "A") == [0, 2]
    && FlightsByOrigin(fl, "B") == [1]
  }

  lemma ShapeOf(fl: seq<Flight>)
    requires fl == Flights3()
    ensures Shape(fl)
  {
    assert FlightsByOrigin(fl, "A") == [0, 2] && FlightsByOrigin(fl, "B") == [1];
  }

  // The search on these flights.

  /** From B the only flight is F2: it is found exactly when it has room. */
  lemma FromB(fl: seq<Flight>, caps: seq<int>, res: Reservation)
    requires Shape(fl) && |caps| == 3 && res.origin == "B" && res.destination == "C"
    ensures Search(fl, caps, res) == if caps[1] >= res.count then [[1]] else []
  {
    assert Search(fl, caps, res) == Branches(fl, caps, res, [], "B", [1]);
    assert Partial(fl, caps, res, [], res.origin) && DepartingFrom(fl, res.origin, [1]);
    StepDirect(fl, caps, res, [1]);
    assert [1][1..] == [];
    BranchesNone(fl, caps, res, [], res.origin);
  }

  /** F1 leads on to F2 only: the path through B is found when both have
      room. */
  lemma ViaF1(fl: seq<Flight>, caps: seq<int>, res: Reservation)
    requires Shape(fl) && |caps| == 3 && res.origin == "A" && res.destination == "C"
    requires Partial(fl, caps, res, [], res.origin) && DepartingFrom(fl, res.origin, [0, 2])
    ensures Branches(fl, caps, res, [], "A", [0, 2]) ==
            (if caps[0] >= res.count && caps[1] >= res.count then [[0, 1]] else []) + Branches(fl, caps, res, [], "A", [2])
  {
    StepOneStop(fl, caps, res, [0, 2], 1);
    assert [0, 2][1..] == [2];
  }

  /** F4 flies straight to C: it is found when it has room. */
  lemma DirectF4(fl: seq<Flight>, caps: seq<int>, res: Reservation)
    requires Shape(fl) && |caps| == 3 && res.origin == "A" && res.destination == "C"
    requires Partial(fl, caps, res, [], res.origin) && DepartingFrom(fl, res.origin, [2])
    ensures Branches(fl, caps, res, [], "A", [2]) == if caps[2] >= res.count then [[2]] else []
  {
    StepDirect(fl, caps, res, [2]);
    assert [2][1..] == [];
    BranchesNone(fl, caps, res, [], res.origin);
  }

  /** From A to C: F1 then F2 when both have room, then F4 when it has
      room. */
  lemma FromA(fl: seq<Flight>, caps: seq<int>, res: Reservation)
    requires Shape(fl) && |caps| == 3 && res.origin == "A" && res.destination == "C"
    ensures Search(fl, caps, res) ==
            (if caps[0] >= res.count && caps[1] >= res.count then [[0, 1]] else []) +
            (if caps[2] >= res.count then [[2]] else [])
  {
    assert Search(fl, caps, res) == Branches(fl, caps, res, [], "A", [0, 2]);
    assert Partial(fl, caps, res, [], res.origin) && DepartingFrom(fl, res.origin, [0, 2]);
    ViaF1(fl, caps, res);
    DirectF4(fl, caps, res);
  }

  // The test "search complex itinerary": seats 8, 4, 5; three seats from A
  // to C.

  /** The search finds F1 and F2, then F4. */
  lemma ComplexSearchScenario(fl: seq<Flight>, caps: seq<int>, res: Reservation)
    requires fl == Flights3() && caps == [8, 4, 5] && res == Reservation("PNR02", 3, "A", "C")
    ensures Search(fl, caps, res) == [[0, 1], [2]]
  {
    ShapeOf(fl);
    FromA(fl, caps, res);
    Cons2([0, 1], [2]);
  }

  // Scoring and committing, for a run of these flights.

  /** Nothing is left unresolved among two later reservations when both
      still find an itinerary. */
  lemma UnresolvedTwo(fl: seq<Flight>, caps: seq<int>, later: seq<Reservation>)
    requires |caps| == |fl| && |later| == 2
    ensures Unresolved(fl, caps, later) ==
            (if |Search(fl, caps, later[0])| == 0 then later[0].count else 0) +
            (if |Search(fl, caps, later[1])| == 0 then later[1].count else 0)
  {
    assert later[1..][0] == later[1] && later[1..][1..] == [];
    assert Unresolved(fl, caps, []) == 0;
  }

  lemma UnresolvedOne(fl: seq<Flight>, caps: seq<int>, later: seq<Reservation>)
    requires |caps| == |fl| && |later| == 1
    ensures Unresolved(fl, caps, later) == if |Search(fl, caps, later[0])| == 0 then later[0].count else 0
  {
    assert later[1..] == [];
    assert Unresolved(fl, caps, []) == 0;
  }

  lemma TakenF4(caps: seq<int>, after: seq<int>, n: int)
    requires |caps| == 3 && TakenFrom(caps, after, [2], n)
    ensures after == [caps[0], caps[1], caps[2] - n]
  {
    assert forall i :: 0 <= i < 3 ==> (i in [2] <==> i == 2);
  }

  lemma TakenF2(caps: seq<int>, after: seq<int>, n: int)
    requires |caps| == 3 && TakenFrom(caps, after, [1], n)
    ensures after == [caps[0], caps[1] - n, caps[2]]
  {
    assert forall i :: 0 <= i < 3 ==> (i in [1] <==> i == 1);
  }

  lemma TakenF1F2(caps: seq<int>, after: seq<int>, n: int)
    requires |caps| == 3 && TakenFrom(caps, after, [0, 1], n)
    ensures after == [caps[0] - n, caps[1] - n, caps[2]]
  {
    assert forall i :: 0 <= i < 3 ==> (i in [0, 1] <==> i < 2);
  }

  // The test "resolve unbalanced flights": seats 5, 4, 100; PNR01 wants two
  // seats from B to C and PNR02 four from A to C. PNR02 goes first; F1 and
  // F2 would leave F2 too few seats for PNR01, so PNR02 takes F4.

  predicate UnbalancedOrder(sorted: seq<Reservation>)
  {
    && |sorted| == 2
    && sorted[0] == Reservation("PNR02", 4, "A", "C")
    && sorted[1] == Reservation("PNR01", 2, "B", "C")
  }

  /** Four seats outrank two: PNR02 comes first. */
  lemma UnbalancedSorted(rs: seq<Reservation>)
    requires rs == [Reservation("PNR01", 2, "B", "C"), Reservation("PNR02", 4, "A", "C")]
    ensures UnbalancedOrder(SortByCount(rs))
  {
    assert rs[..1] == [rs[0]] && [rs[0]][..0] == [];
    assert SortByCount([rs[0]]) == [rs[0]];
  }

  lemma UnbalancedScores(fl: seq<Flight>, caps: seq<int>, sorted: seq<Reservation>)
    requires Shape(fl) && caps == [5, 4, 100] && UnbalancedOrder(sorted)
    ensures Score(fl, caps, sorted, 0, [0, 1]) == 2
    ensures Score(fl, caps, sorted, 0, [2]) == 0
  {
    UnbalancedScoreViaB(fl, caps, sorted);
    UnbalancedScoreDirect(fl, caps, sorted);
  }

  /** F1 and F2 would leave F2 no seat for PNR01. */
  lemma UnbalancedScoreViaB(fl: seq<Flight>, caps: seq<int>, sorted: seq<Reservation>)
    requires Shape(fl) && caps == [5, 4, 100] && UnbalancedOrder(sorted)
    ensures Score(fl, caps, sorted, 0, [0, 1]) == 2
  {
    var after := Apply(caps, [0, 1], 4);
    assert after[1] == 0;
    var later := sorted[1..];
    assert |later| == 1 && later[0] == sorted[1];
    UnresolvedOne(fl, after, later);
    FromB(fl, after, later[0]);
  }

  /** F4 leaves F2's four seats to PNR01. */
  lemma UnbalancedScoreDirect(fl: seq<Flight>, caps: seq<int>, sorted: seq<Reservation>)
    requires Shape(fl) && caps == [5, 4, 100] && UnbalancedOrder(sorted)
    ensures Score(fl, caps, sorted, 0, [2]) == 0
  {
    var after := Apply(caps, [2], 4);
    assert after[1] == 4;
    var later := sorted[1..];
    assert |later| == 1 && later[0] == sorted[1];
    UnresolvedOne(fl, after, later);
    FromB(fl, after, later[0]);
  }

  /** PNR02 takes F4, the candidate that strands nobody. */
  lemma UnbalancedFirst(fl: seq<Flight>, caps: seq<int>, sorted: seq<Reservation>)
    requires Shape(fl) && caps == [5, 4, 100] && UnbalancedOrder(sorted)
    ensures ResolveReservation(fl, caps, sorted, 0) == Outcome(Some([2]), [5, 4, 96])
  {
    UnbalancedChoice(fl, caps, sorted);
    Committed(fl, caps, sorted, 0, [2]);
    TakenF4(caps, ResolveReservation(fl, caps, sorted, 0).caps, 4);
  }

  lemma UnbalancedChoice(fl: seq<Flight>, caps: seq<int>, sorted: seq<Reservation>)
    requires Shape(fl) && caps == [5, 4, 100] && UnbalancedOrder(sorted)
    ensures ResolveReservation(fl, caps, sorted, 0).chosen == Some([2])
  {
    assert Search(fl, caps, sorted[0]) == [[0, 1], [2]] by {
      FromA(fl, caps, sorted[0]);
      Cons2([0, 1], [2]);
    }
    SearchInRange(fl, caps, sorted[0]);
    ResolveChoice(fl, caps, sorted, 0);
    UnbalancedScores(fl, caps, sorted);
    ChooseOfTwo(fl, caps, sorted, 0, [0, 1], [2], ResolveReservation(fl, caps, sorted, 0).chosen.value);
  }

  /** PNR01 then takes F2, which still has four seats. */
  lemma UnbalancedSecond(fl: seq<Flight>, caps: seq<int>, sorted: seq<Reservation>)
    requires Shape(fl) && caps == [5, 4, 96] && UnbalancedOrder(sorted)
    ensures ResolveReservation(fl, caps, sorted, 1) == Outcome(Some([1]), [5, 2, 96])
  {
    FromB(fl, caps, sorted[1]);
    OnlyCandidate(fl, caps, sorted, 1, [1]);
    Committed(fl, caps, sorted, 1, [1]);
    TakenF2(caps, ResolveReservation(fl, caps, sorted, 1).caps, 2);
  }

  lemma UnbalancedRun(fl: seq<Flight>, caps: seq<int>, sorted: seq<Reservation>)
    requires Shape(fl) && caps == [5, 4, 100] && UnbalancedOrder(sorted)
    ensures ResolveFrom(fl, caps, sorted, 0) ==
            Resolution([Entry(sorted[0], Some([2])), Entry(sorted[1], Some([1]))], [5, 2, 96])
  {
    UnbalancedFirst(fl, caps, sorted);
    UnbalancedTail(fl, sorted);
    Cons2(Entry(sorted[0], Some([2])), Entry(sorted[1], Some([1])));
  }

  lemma UnbalancedTail(fl: seq<Flight>, sorted: seq<Reservation>)
    requires Shape(fl) && UnbalancedOrder(sorted)
    ensures ResolveFrom(fl, [5, 4, 96], sorted, 1) == Resolution([Entry(sorted[1], Some([1]))], [5, 2, 96])
  {
    UnbalancedSecond(fl, [5, 4, 96], sorted);
    assert ResolveFrom(fl, [5, 2, 96], sorted, 2) == Resolution([], [5, 2, 96]);
  }

  lemma UnbalancedResult(fl: seq<Flight>, entries: seq<Entry>)
    requires Shape(fl) && |entries| == 2
    requires entries[0] == Entry(Reservation("PNR02", 4, "A", "C"), Some([2]))
    requires entries[1] == Entry(Reservation("PNR01", 2, "B", "C"), Some([1]))
    ensures EntriesInRange(|fl|, entries)
    ensures ResultMap(fl, entries) == map["PNR02" := Some(["F4"]), "PNR01" := Some(["F2"])]
  {
    UnbalancedAnswers(fl, entries);
    ResultEnd(fl, entries);
    ResultStepAt(fl, entries, 1, map[], "PNR01", Some(["F2"]));
    UnbalancedKeys();
    ResultStart(fl, entries, map[]["PNR01" := Some(["F2"])], "PNR02", Some(["F4"]));
  }

  lemma UnbalancedAnswers(fl: seq<Flight>, entries: seq<Entry>)
    requires Shape(fl) && |entries| == 2
    requires entries[0] == Entry(Reservation("PNR02", 4, "A", "C"), Some([2]))
    requires entries[1] == Entry(Reservation("PNR01", 2, "B", "C"), Some([1]))
    ensures EntriesInRange(|fl|, entries)
    ensures entries[0].reservation.id == "PNR02" && Resolved(fl, entries[0]) == Some(["F4"])
    ensures entries[1].reservation.id == "PNR01" && Resolved(fl, entries[1]) == Some(["F2"])
  {
    IdsOne(fl, 2);
    IdsOne(fl, 1);
  }

  lemma UnbalancedKeys()
    ensures "PNR02" !in map[]["PNR01" := Some(["F2"])]
    ensures map[]["PNR01" := Some(["F2"])]["PNR02" := Some(["F4"])] == map["PNR02" := Some(["F4"]), "PNR01" := Some(["F2"])]
  {
  }

  /** PNR02 is answered with F4 and PNR01 with F2; F2 keeps two seats and
      F4 keeps 96. */
  lemma UnbalancedScenario(fl: seq<Flight>, caps: seq<int>, rs: seq<Reservation>)
    requires fl == Flights3() && caps == [5, 4, 100]
    requires rs == [Reservation("PNR01", 2, "B", "C"), Reservation("PNR02", 4, "A", "C")]
    ensures var r := ResolveAll(fl, caps, rs);
            && r.caps == [5, 2, 96]
            && EntriesInRange(|fl|, r.entries)
            && ResultMap(fl, r.entries) == map["PNR02" := Some(["F4"]), "PNR01" := Some(["F2"])]
  {
    ShapeOf(fl);
    UnbalancedSorted(rs);
    var sorted := SortByCount(rs);
    UnbalancedRun(fl, caps, sorted);
    assert sorted[0..] == sorted;
    Cons2(Entry(sorted[0], Some([2])), Entry(sorted[1], Some([1])));
    UnbalancedResult(fl, [Entry(sorted[0], Some([2])), Entry(sorted[1], Some([1]))]);
  }

  // The test "resolve all complex itinerary": seats 8, 4, 5; PNR04 wants
  // four seats from A to C, PNR02 and PNR10 three each. Either choice for
  // PNR04 leaves both others an itinerary, so the tie goes to F4, the
  // itinerary of fewer seats; PNR02 takes F1 and F2, and PNR10 finds
  // nothing.

  predicate ComplexOrder(rs: seq<Reservation>)
  {
    && |rs| == 3
    && rs[0] == Reservation("PNR04", 4, "A", "C")
    && rs[1] == Reservation("PNR02", 3, "A", "C")
    && rs[2] == Reservation("PNR10", 3, "A", "C")
  }

  /** The reservations are already in order of count. */
  lemma ComplexSorted(rs: seq<Reservation>)
    requires rs == [Reservation("PNR04", 4, "A", "C"), Reservation("PNR02", 3, "A", "C"), Reservation("PNR10", 3, "A", "C")]
    ensures SortByCount(rs) == rs && ComplexOrder(rs)
  {
    assert ByCountDescending(rs);
    SortSorted(rs);
  }

  /** After F1 and F2 take four seats, F4 still serves both later
      reservations. */
  lemma ComplexScoreViaB(fl: seq<Flight>, caps: seq<int>, rs: seq<Reservation>)
    requires Shape(fl) && caps == [8, 4, 5] && ComplexOrder(rs)
    ensures Score(fl, caps, rs, 0, [0, 1]) == 0
  {
    var after := Apply(caps, [0, 1], 4);
    assert after[2] == 5;
    var later := rs[1..];
    assert |later| == 2 && later[0] == rs[1] && later[1] == rs[2];
    UnresolvedTwo(fl, after, later);
    FromA(fl, after, rs[1]);
    FromA(fl, after, rs[2]);
  }

  /** After F4 takes four seats, F1 and F2 still serve both later
      reservations. */
  lemma ComplexScoreDirect(fl: seq<Flight>, caps: seq<int>, rs: seq<Reservation>)
    requires Shape(fl) && caps == [8, 4, 5] && ComplexOrder(rs)
    ensures Score(fl, caps, rs, 0, [2]) == 0
  {
    var after := Apply(caps, [2], 4);
    assert after[0] == 8 && after[1] == 4;
    var later := rs[1..];
    assert |later| == 2 && later[0] == rs[1] && later[1] == rs[2];
    UnresolvedTwo(fl, after, later);
    FromA(fl, after, rs[1]);
    FromA(fl, after, rs[2]);
  }

  lemma ComplexTotals(caps: seq<int>)
    requires caps == [8, 4, 5]
    ensures TotalCapacity(caps, [0, 1]) == 12 && TotalCapacity(caps, [2]) == 5
  {
    Total2(caps, 0, 1);
    Total1(caps, 2);
  }

  /** PNR04 takes F4: both candidates strand nobody, and F4 has fewer
      seats than F1 and F2 together. */
  lemma ComplexFirst(fl: seq<Flight>, caps: seq<int>, rs: seq<Reservation>)
    requires Shape(fl) && caps == [8, 4, 5] && ComplexOrder(rs)
    ensures ResolveReservation(fl, caps, rs, 0) == Outcome(Some([2]), [8, 4, 1])
  {
    FromA(fl, caps, rs[0]);
    Cons2([0, 1], [2]);
    SearchInRange(fl, caps, rs[0]);
    ResolveChoice(fl, caps, rs, 0);
    var o := ResolveReservation(fl, caps, rs, 0);
    ComplexScoreViaB(fl, caps, rs);
    ComplexScoreDirect(fl, caps, rs);
    ChooseOfTwo(fl, caps, rs, 0, [0, 1], [2], o.chosen.value);
    ComplexTotals(caps);
    Committed(fl, caps, rs, 0, [2]);
    TakenF4(caps, o.caps, 4);
  }

  /** PNR02 takes F1 and F2, the only itinerary left. */
  lemma ComplexSecond(fl: seq<Flight>, caps: seq<int>, rs: seq<Reservation>)
    requires Shape(fl) && caps == [8, 4, 1] && ComplexOrder(rs)
    ensures ResolveReservation(fl, caps, rs, 1) == Outcome(Some([0, 1]), [5, 1, 1])
  {
    FromA(fl, caps, rs[1]);
    assert Search(fl, caps, rs[1]) == [[0, 1]];
    OnlyCandidate(fl, caps, rs, 1, [0, 1]);
    Committed(fl, caps, rs, 1, [0, 1]);
    TakenF1F2(caps, ResolveReservation(fl, caps, rs, 1).caps, 3);
  }

  /** PNR10 finds nothing. */
  lemma ComplexThird(fl: seq<Flight>, caps: seq<int>, rs: seq<Reservation>)
    requires Shape(fl) && caps == [5, 1, 1] && ComplexOrder(rs)
    ensures ResolveReservation(fl, caps, rs, 2) == Outcome(None, [5, 1, 1])
  {
    FromA(fl, caps, rs[2]);
  }

  lemma ComplexRun(fl: seq<Flight>, caps: seq<int>, rs: seq<Reservation>)
    requires Shape(fl) && caps == [8, 4, 5] && ComplexOrder(rs)
    ensures ResolveFrom(fl, caps, rs, 0) ==
            Resolution([Entry(rs[0], Some([2])), Entry(rs[1], Some([0, 1])), Entry(rs[2], None)], [5, 1, 1])
  {
    ComplexFirst(fl, caps, rs);
    ComplexTail(fl, rs);
    Cons3(Entry(rs[0], Some([2])), Entry(rs[1], Some([0, 1])), Entry(rs[2], None));
  }

  lemma ComplexTail(fl: seq<Flight>, rs: seq<Reservation>)
    requires Shape(fl) && ComplexOrder(rs)
    ensures ResolveFrom(fl, [8, 4, 1], rs, 1) ==
            Resolution([Entry(rs[1], Some([0, 1]))] + [Entry(rs[2], None)], [5, 1, 1])
  {
    ComplexSecond(fl, [8, 4, 1], rs);
    ComplexThird(fl, [5, 1, 1], rs);
    assert ResolveFrom(fl, [5, 1, 1], rs, 3) == Resolution([], [5, 1, 1]);
    assert ResolveFrom(fl, [5, 1, 1], rs, 2) == Resolution([Entry(rs[2], None)], [5, 1, 1]);
  }

  lemma ComplexResult(fl: seq<Flight>, rs: seq<Reservation>, entries: seq<Entry>)
    requires Shape(fl) && ComplexOrder(rs)
    requires entries == [Entry(rs[0], Some([2])), Entry(rs[1], Some([0, 1])), Entry(rs[2], None)]
    ensures EntriesInRange(|fl|, entries)
    ensures ResultMap(fl, entries) == map["PNR04" := Some(["F4"]), "PNR02" := Some(["F1", "F2"]), "PNR10" := None]
  {
    ComplexAnswers(fl, rs, entries);
    ResultEnd(fl, entries);
    ResultStepAt(fl, entries, 2, map[], "PNR10", None);
    ComplexKeys();
    ResultStepAt(fl, entries, 1, map[]["PNR10" := None], "PNR02", Some(["F1", "F2"]));
    ResultStart(fl, entries, map[]["PNR10" := None]["PNR02" := Some(["F1", "F2"])], "PNR04", Some(["F4"]));
  }

  lemma ComplexAnswers(fl: seq<Flight>, rs: seq<Reservation>, entries: seq<Entry>)
    requires Shape(fl) && ComplexOrder(rs)
    requires entries == [Entry(rs[0], Some([2])), Entry(rs[1], Some([0, 1])), Entry(rs[2], None)]
    ensures EntriesInRange(|fl|, entries)
    ensures entries[0].reservation.id == "PNR04" && Resolved(fl, entries[0]) == Some(["F4"])
    ensures entries[1].reservation.id == "PNR02" && Resolved(fl, entries[1]) == Some(["F1", "F2"])
    ensures entries[2].reservation.id == "PNR10" && Resolved(fl, entries[2]) == None
  {
    IdsOne(fl, 2);
    IdsTwo(fl, 0, 1);
  }

  lemma ComplexKeys()
    ensures var last: map<string, Option<seq<string>>> := map[]["PNR10" := None];
            && "PNR02" !in last
            && "PNR04" !in last["PNR02" := Some(["F1", "F2"])]
            && last["PNR02" := Some(["F1", "F2"])]["PNR04" := Some(["F4"])] ==
               map["PNR04" := Some(["F4"]), "PNR02" := Some(["F1", "F2"]), "PNR10" := None]
  {
  }

  /** PNR04 is answered with F4, PNR02 with F1 and F2, PNR10 with null. */
  lemma ComplexResolveScenario(fl: seq<Flight>, caps: seq<int>, rs: seq<Reservation>)
    requires fl == Flights3() && caps == [8, 4, 5]
    requires rs == [Reservation("PNR04", 4, "A", "C"), Reservation("PNR02", 3, "A", "C"), Reservation("PNR10", 3, "A", "C")]
    ensures var r := ResolveAll(fl, caps, rs);
            && r.caps == [5, 1, 1]
            && EntriesInRange(|fl|, r.entries)
            && ResultMap(fl, r.entries) == map["PNR04" := Some(["F4"]), "PNR02" := Some(["F1", "F2"]), "PNR10" := None]
  {
    ShapeOf(fl);
    ComplexSorted(rs);
    ComplexWhole(fl, rs);
  }

  lemma ComplexWhole(fl: seq<Flight>, rs: seq<Reservation>)
    requires Shape(fl) && ComplexOrder(rs) && SortByCount(rs) == rs
    ensures var r := ResolveAll(fl, [8, 4, 5], rs);
            && r.caps == [5, 1, 1]
            && EntriesInRange(|fl|, r.entries)
            && ResultMap(fl, r.entries) == map["PNR04" := Some(["F4"]), "PNR02" := Some(["F1", "F2"]), "PNR10" := None]
  {
    ComplexRun(fl, [8, 4, 5], rs);
    assert rs[0..] == rs;
    ComplexResult(fl, rs, [Entry(rs[0], Some([2])), Entry(rs[1], Some([0, 1])), Entry(rs[2], None)]);
  }
}
