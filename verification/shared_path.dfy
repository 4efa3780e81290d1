/** The search exactly as resolver.js writes it (lines 62-99): every start
    flight gets one array, nextItinerary pushes onto that array and never
    pops, and each arrival pushes a reference to that same array into the
    result. All results of one start flight therefore show the array's final
    contents, and a flight pushed by an earlier branch blocks later branches
    through the `indexOf` test. The rest of the model uses ItinerarySearch.Search,
    where every branch extends its own copy. */
module SharedPath {
  import opened Flights
  import opened ItinerarySearch

  lemma UnusedMonotone(n: nat, a: Path, b: Path)
    requires |a| <= |b| && b[..|a|] == a
    ensures Unused(n, b) <= Unused(n, a)
  {
    assert forall j :: 0 <= j < |a| ==> a[j] == b[j];
  }

  lemma PrefixTrans(a: Path, b: Path, c: Path)
    requires |a| <= |b| && b[..|a|] == a
    requires |b| <= |c| && c[..|b|] == b
    ensures c[..|a|] == a
  {
    assert c[..|a|] == c[..|b|][..|a|];
  }

  /** nextItinerary on the shared array `arr`: the array as left behind, and
      how many references to it were pushed into the result. */
  function NextShared(fl: seq<Flight>, caps: seq<int>, res: Reservation, arr: Path, at: string): (r: (Path, nat))
    requires |caps| == |fl| && InRange(|fl|, arr)
    ensures InRange(|fl|, r.0) && |arr| <= |r.0| && r.0[..|arr|] == arr
    ensures Distinct(arr) && Eligible(caps, arr, res.count) ==> Distinct(r.0) && Eligible(caps, r.0, res.count)
    decreases Unused(|fl|, arr), 1, 0
  {
    if at != res.destination then BranchesShared(fl, caps, res, arr, at, FlightsByOrigin(fl, at))
    else (arr, 1)
  }

  function BranchesShared(fl: seq<Flight>, caps: seq<int>, res: Reservation, arr: Path, at: string, cands: seq<nat>): (r: (Path, nat))
    requires |caps| == |fl| && InRange(|fl|, arr) && InRange(|fl|, cands)
    ensures InRange(|fl|, r.0) && |arr| <= |r.0| && r.0[..|arr|] == arr
    ensures Distinct(arr) && Eligible(caps, arr, res.count) ==> Distinct(r.0) && Eligible(caps, r.0, res.count)
    decreases Unused(|fl|, arr), 0, |cands|
  {
    if cands == [] then (arr, 0)
    else
      var c := cands[0];
      if caps[c] >= res.count && c !in arr then
        UnusedShrinks(|fl|, arr, c);
        var a1 := NextShared(fl, caps, res, arr + [c], fl[c].destination);
        UnusedMonotone(|fl|, arr + [c], a1.0);
        var a2 := BranchesShared(fl, caps, res, a1.0, at, cands[1..]);
        PrefixTrans(arr + [c], a1.0, a2.0);
        assert a2.0[..|arr|] == (arr + [c])[..|arr|];
        (a2.0, a1.1 + a2.1)
      else BranchesShared(fl, caps, res, arr, at, cands[1..])
  }

  function Repeat(a: Path, k: nat): (r: seq<Path>)
    ensures |r| == k && forall j :: 0 <= j < k ==> r[j] == a
  {
    if k == 0 then [] else [a] + Repeat(a, k - 1)
  }

  function StartsShared(fl: seq<Flight>, caps: seq<int>, res: Reservation, cands: seq<nat>): (r: seq<Path>)
    requires |caps| == |fl| && InRange(|fl|, cands)
    ensures forall q :: q in r ==> Reported(fl, caps, res, cands, q)
  {
    if cands == [] then []
    else
      var c := cands[0];
      var here :=
        if caps[c] >= res.count then
          var r := NextShared(fl, caps, res, [c], fl[c].destination);
          Repeat(r.0, r.1)
        else [];
      here + StartsShared(fl, caps, res, cands[1..])
  }

  /** What a reported array is sure to be: loop-free, every flight with
      room, the first one of `cands`. It need not be linked. */
  predicate Reported(fl: seq<Flight>, caps: seq<int>, res: Reservation, cands: seq<nat>, q: Path)
    requires |caps| == |fl|
  {
    && |q| > 0 && InRange(|fl|, q) && q[0] in cands
    && Distinct(q) && Eligible(caps, q, res.count)
  }

  /** searchItinerary as written, with the aliasing of its result arrays. */
  function SearchAsWritten(fl: seq<Flight>, caps: seq<int>, res: Reservation): (r: seq<Path>)
    requires |caps| == |fl|
    ensures forall q :: q in r ==> Reported(fl, caps, res, FlightsByOrigin(fl, res.origin), q)
  {
    StartsShared(fl, caps, res, FlightsByOrigin(fl, res.origin))
  }

  // Two flights continue from B to C: F1 A->B, F2 B->C, F3 B->C, and one
  // passenger travels from A to C.

  function ForkFlights(): seq<Flight>
  {
    [Flight("F1", "A", "B"), Flight("F2", "B", "C"), Flight("F3", "B", "C")]
  }

  function ForkCaps(): seq<int>
  {
    [5, 5, 5]
  }

  function ForkReservation(): Reservation
  {
    Reservation("R1", 1, "A", "C")
  }

  lemma ForkDepartures()
    ensures FlightsByOrigin(ForkFlights(), "A") == [0]
    ensures FlightsByOrigin(ForkFlights(), "B") == [1, 2]
  {
  }

  lemma ForkSharedLeaf()
    ensures NextShared(ForkFlights(), ForkCaps(), ForkReservation(), [0, 1, 2], "C") == ([0, 1, 2], 1)
    ensures BranchesShared(ForkFlights(), ForkCaps(), ForkReservation(), [0, 1, 2], "B", []) == ([0, 1, 2], 0)
    ensures NextShared(ForkFlights(), ForkCaps(), ForkReservation(), [0, 1], "C") == ([0, 1], 1)
  {
  }

  lemma ForkSharedInner()
    ensures BranchesShared(ForkFlights(), ForkCaps(), ForkReservation(), [0, 1], "B", [2]) == ([0, 1, 2], 1)
  {
    ForkSharedLeaf();
    assert [0, 1] + [2] == [0, 1, 2] && 2 !in [0, 1] && [2][1..] == [];
  }

  lemma ForkSharedBranches()
    ensures BranchesShared(ForkFlights(), ForkCaps(), ForkReservation(), [0], "B", [1, 2]) == ([0, 1, 2], 2)
  {
    ForkSharedLeaf();
    ForkSharedInner();
    assert [0] + [1] == [0, 1] && 1 !in [0] && [1, 2][1..] == [2];
  }

  lemma ForkSharedOuter()
    ensures NextShared(ForkFlights(), ForkCaps(), ForkReservation(), [0], "B") == ([0, 1, 2], 2)
  {
    ForkDepartures();
    ForkSharedBranches();
  }

  lemma ForkStarts()
    ensures StartsShared(ForkFlights(), ForkCaps(), ForkReservation(), [0]) == [[0, 1, 2], [0, 1, 2]]
  {
    ForkSharedOuter();
    assert [0][1..] == [];
    assert StartsShared(ForkFlights(), ForkCaps(), ForkReservation(), []) == [];
    assert Repeat([0, 1, 2], 2) == [[0, 1, 2], [0, 1, 2]];
  }

  lemma ForkShared()
    ensures SearchAsWritten(ForkFlights(), ForkCaps(), ForkReservation()) == [[0, 1, 2], [0, 1, 2]]
  {
    ForkDepartures();
    ForkStarts();
  }

  /** The facts about the fork that its enumeration uses. */
  predicate ForkNet(fl: seq<Flight>, caps: seq<int>, res: Reservation)
  {
    && |fl| == 3 && |caps| == 3
    && fl[0].origin == "A" && fl[0].destination == "B"
    && fl[1].origin == "B" && fl[1].destination == "C"
    && fl[2].origin == "B" && fl[2].destination == "C"
    && caps[0] >= res.count && caps[1] >= res.count && caps[2] >= res.count
    && res.origin == "A" && res.destination == "C"
    && FlightsByOrigin(fl, "A") == [0] && FlightsByOrigin(fl, "B") == [1, 2]
  }

  lemma ForkNetOf()
    ensures ForkNet(ForkFlights(), ForkCaps(), ForkReservation())
  {
    ForkDepartures();
  }

  lemma ForkSteps()
    ensures [] + [0] == [0] && [0] + [1] == [0, 1] && [0] + [2] == [0, 2]
    ensures 1 !in [0] && 2 !in [0] && [1, 2][1..] == [2] && [2][1..] == [] && [0][1..] == []
  {
  }

  lemma ForkPartial(fl: seq<Flight>, caps: seq<int>, res: Reservation)
    requires ForkNet(fl, caps, res)
    ensures Partial(fl, caps, res, [], "A")
    ensures Partial(fl, caps, res, [0], "B")
    ensures Partial(fl, caps, res, [0, 1], "C")
    ensures Partial(fl, caps, res, [0, 2], "C")
  {
    ForkSteps();
    PartialStep(fl, caps, res, [], "A", 0);
    PartialStep(fl, caps, res, [0], "B", 1);
    PartialStep(fl, caps, res, [0], "B", 2);
  }

  lemma ForkLeaves(fl: seq<Flight>, caps: seq<int>, res: Reservation)
    requires ForkNet(fl, caps, res)
    ensures Partial(fl, caps, res, [0, 1], "C") && Partial(fl, caps, res, [0, 2], "C")
    ensures Extend(fl, caps, res, [0, 1], "C") == [[0, 1]]
    ensures Extend(fl, caps, res, [0, 2], "C") == [[0, 2]]
  {
    ForkPartial(fl, caps, res);
  }

  lemma ForkInner(fl: seq<Flight>, caps: seq<int>, res: Reservation)
    requires ForkNet(fl, caps, res)
    ensures Partial(fl, caps, res, [0], "B")
    ensures Branches(fl, caps, res, [0], "B", [2]) == [[0, 2]]
  {
    ForkPartial(fl, caps, res);
    ForkLeaves(fl, caps, res);
    ForkSteps();
    BranchesTake(fl, caps, res, [0], "B", [2]);
    assert Branches(fl, caps, res, [0], "B", []) == [];
  }

  lemma ForkBranches(fl: seq<Flight>, caps: seq<int>, res: Reservation)
    requires ForkNet(fl, caps, res)
    ensures Partial(fl, caps, res, [0], "B")
    ensures Branches(fl, caps, res, [0], "B", [1, 2]) == [[0, 1], [0, 2]]
  {
    ForkPartial(fl, caps, res);
    ForkLeaves(fl, caps, res);
    ForkInner(fl, caps, res);
    ForkSteps();
    BranchesTake(fl, caps, res, [0], "B", [1, 2]);
  }

  lemma ForkStart(fl: seq<Flight>, caps: seq<int>, res: Reservation)
    requires ForkNet(fl, caps, res)
    ensures Partial(fl, caps, res, [], "A")
    ensures Branches(fl, caps, res, [], "A", [0]) == [[0, 1], [0, 2]]
  {
    ForkPartial(fl, caps, res);
    ForkBranches(fl, caps, res);
    ForkSteps();
    BranchesTake(fl, caps, res, [], "A", [0]);
    assert Extend(fl, caps, res, [0], "B") == [[0, 1], [0, 2]];
    assert Branches(fl, caps, res, [], "A", []) == [];
  }

  lemma ForkSearch(fl: seq<Flight>, caps: seq<int>, res: Reservation)
    requires ForkNet(fl, caps, res)
    ensures Search(fl, caps, res) == [[0, 1], [0, 2]]
  {
    ForkStart(fl, caps, res);
  }

  lemma ForkIntended()
    ensures Search(ForkFlights(), ForkCaps(), ForkReservation()) == [[0, 1], [0, 2]]
  {
    ForkNetOf();
    ForkSearch(ForkFlights(), ForkCaps(), ForkReservation());
  }

  lemma ForkInvalid()
    ensures !Itinerary(ForkFlights(), ForkCaps(), ForkReservation(), [0, 1, 2])
  {
    var p: Path := [0, 1, 2];
    assert ForkFlights()[p[1]].destination != ForkFlights()[p[2]].origin;
  }

  /** On the fork, the code as written returns the path F1, F2, F3 twice,
      which is not an itinerary (F2 lands at C, F3 leaves from B); the
      intended search returns F1, F2 and then F1, F3. */
  lemma AliasingCounterexample()
    ensures SearchAsWritten(ForkFlights(), ForkCaps(), ForkReservation()) == [[0, 1, 2], [0, 1, 2]]
    ensures !Itinerary(ForkFlights(), ForkCaps(), ForkReservation(), [0, 1, 2])
    ensures Search(ForkFlights(), ForkCaps(), ForkReservation()) == [[0, 1], [0, 2]]
  {
    ForkShared();
    ForkIntended();
    ForkInvalid();
  }
}
