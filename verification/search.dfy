/** Itinerary search: the depth-first enumeration of searchItinerary and
    nextItinerary in resolver.js.

    Each branch of the enumeration extends its own copy of the path. The
    JavaScript pushes onto one shared array and never pops it; that behaviour
    is modelled separately in module SharedPath. */
module ItinerarySearch {
  import opened Flights

  /** Consecutive flights of `p` meet: each arrives where the next departs. */
  predicate Linked(fl: seq<Flight>, p: Path)
    requires InRange(|fl|, p)
  {
    forall j :: 0 <= j < |p| - 1 ==> fl[p[j]].destination == fl[p[j + 1]].origin
  }

  /** No flight of `p` other than the last reaches `res.destination`: the
      search stops as soon as it arrives. */
  predicate NoEarlyArrival(fl: seq<Flight>, res: Reservation, p: Path)
    requires InRange(|fl|, p)
  {
    forall j :: 0 <= j < |p| - 1 ==> fl[p[j]].destination != res.destination
  }

  /** Every flight of `p` can seat `n` passengers. */
  predicate Eligible(caps: seq<int>, p: Path, n: int)
    requires InRange(|caps|, p)
  {
    forall j :: 0 <= j < |p| ==> caps[p[j]] >= n
  }

  /** `p` is a route for `res`: a non-empty loop-free chain of flights from
      its origin that ends on first arrival at its destination. */
  predicate Route(fl: seq<Flight>, res: Reservation, p: Path)
  {
    && |p| > 0
    && InRange(|fl|, p)
    && Distinct(p)
    && fl[p[0]].origin == res.origin
    && Linked(fl, p)
    && fl[p[|p| - 1]].destination == res.destination
    && NoEarlyArrival(fl, res, p)
  }

  /** `p` is an itinerary the search may return for `res` under `caps`. */
  predicate Itinerary(fl: seq<Flight>, caps: seq<int>, res: Reservation, p: Path)
    requires |caps| == |fl|
  {
    Route(fl, res, p) && Eligible(caps, p, res.count)
  }

  /** A path under construction that currently stands at location `at`. */
  predicate Partial(fl: seq<Flight>, caps: seq<int>, res: Reservation, path: Path, at: string)
    requires |caps| == |fl|
  {
    && InRange(|fl|, path)
    && Distinct(path)
    && Linked(fl, path)
    && NoEarlyArrival(fl, res, path)
    && Eligible(caps, path, res.count)
    && (|path| == 0 ==> at == res.origin)
    && (|path| > 0 ==> fl[path[0]].origin == res.origin && fl[path[|path| - 1]].destination == at)
  }

  /** Every index in `cands` names a flight departing `at`. */
  predicate DepartingFrom(fl: seq<Flight>, at: string, cands: seq<nat>)
  {
    forall j :: 0 <= j < |cands| ==> cands[j] < |fl| && fl[cands[j]].origin == at
  }

  /** The flights not yet on `path`; it shrinks with every extension, which
      bounds the depth of the search. */
  function Unused(n: nat, path: Path): set<nat>
  {
    set i: nat | i < n && i !in path
  }

  lemma UnusedShrinks(n: nat, path: Path, c: nat)
    requires c < n && c !in path
    ensures Unused(n, path + [c]) < Unused(n, path)
  {
    assert c in Unused(n, path);
    assert c in path + [c];
  }

  lemma PartialStep(fl: seq<Flight>, caps: seq<int>, res: Reservation, path: Path, at: string, c: nat)
    requires |caps| == |fl|
    requires Partial(fl, caps, res, path, at)
    requires |path| > 0 ==> at != res.destination
    requires c < |fl| && fl[c].origin == at && caps[c] >= res.count && c !in path
    ensures Partial(fl, caps, res, path + [c], fl[c].destination)
  {
    var q := path + [c];
    assert forall j :: 0 <= j < |path| ==> q[j] == path[j];
    assert Linked(fl, q) by {
      forall j | 0 <= j < |q| - 1 ensures fl[q[j]].destination == fl[q[j + 1]].origin {
        if j == |path| - 1 {
          assert q[j + 1] == c;
        }
      }
    }
  }

  /** The results below `path + [c]` continue `path` with `c`. */
  lemma PrefixStep(path: Path, c: nat, e: seq<Path>)
    requires forall q :: q in e ==> |path| + 1 <= |q| && q[..|path| + 1] == path + [c]
    ensures forall q :: q in e ==> |path| < |q| && q[..|path|] == path && q[|path|] == c
  {
    forall q | q in e ensures |path| < |q| && q[..|path|] == path && q[|path|] == c {
      assert q[..|path|] == q[..|path| + 1][..|path|];
      assert q[|path|] == q[..|path| + 1][|path|];
    }
  }

  /** nextItinerary: at the destination the path is complete; elsewhere it
      is extended by every eligible departing flight in turn. */
  function Extend(fl: seq<Flight>, caps: seq<int>, res: Reservation, path: Path, at: string): (r: seq<Path>)
    requires |caps| == |fl|
    requires Partial(fl, caps, res, path, at) && |path| > 0
    ensures forall q :: q in r ==> Itinerary(fl, caps, res, q) && |path| <= |q| && q[..|path|] == path
    decreases Unused(|fl|, path), 1, 0
  {
    if at == res.destination then [path]
    else Branches(fl, caps, res, path, at, FlightsByOrigin(fl, at))
  }

  /** The loop of nextItinerary over the flights departing `at`: a flight
      that can seat the reservation and is not yet on the path extends it. */
  function Branches(fl: seq<Flight>, caps: seq<int>, res: Reservation, path: Path, at: string, cands: seq<nat>): (r: seq<Path>)
    requires |caps| == |fl|
    requires Partial(fl, caps, res, path, at)
    requires |path| > 0 ==> at != res.destination
    requires DepartingFrom(fl, at, cands)
    ensures forall q :: q in r ==>
              && Itinerary(fl, caps, res, q)
              && |path| < |q| && q[..|path|] == path && q[|path|] in cands
    decreases Unused(|fl|, path), 0, |cands|
  {
    if cands == [] then []
    else
      var c := cands[0];
      var here :=
        if caps[c] >= res.count && c !in path then
          UnusedShrinks(|fl|, path, c);
          PartialStep(fl, caps, res, path, at, c);
          var e := Extend(fl, caps, res, path + [c], fl[c].destination);
          PrefixStep(path, c, e);
          e
        else [];
      var rest := Branches(fl, caps, res, path, at, cands[1..]);
      assert forall q :: q in rest ==> q[|path|] in cands;
      here + rest
  }

  /** searchItinerary: every eligible flight departing the origin starts a
      path. No arrival test is made before the first flight, so a
      reservation whose origin is its destination is served only by a
      cycle. */
  function Search(fl: seq<Flight>, caps: seq<int>, res: Reservation): (r: seq<Path>)
    requires |caps| == |fl|
    ensures forall q :: q in r ==> Itinerary(fl, caps, res, q)
  {
    Branches(fl, caps, res, [], res.origin, FlightsByOrigin(fl, res.origin))
  }

  // Single steps of the enumeration, for unfolding it on given flights.

  /** One step of the loop of nextItinerary: a departing flight that can
      seat the reservation and is not on the path is followed first, then
      the loop goes on with the remaining flights. */
  lemma BranchesTake(fl: seq<Flight>, caps: seq<int>, res: Reservation, path: Path, at: string, cands: seq<nat>)
    requires |caps| == |fl| && Partial(fl, caps, res, path, at) && (|path| > 0 ==> at != res.destination)
    requires DepartingFrom(fl, at, cands) && cands != []
    requires caps[cands[0]] >= res.count && cands[0] !in path
    ensures Partial(fl, caps, res, path + [cands[0]], fl[cands[0]].destination)
    ensures DepartingFrom(fl, at, cands[1..])
    ensures Branches(fl, caps, res, path, at, cands) ==
            Extend(fl, caps, res, path + [cands[0]], fl[cands[0]].destination) + Branches(fl, caps, res, path, at, cands[1..])
  {
    PartialStep(fl, caps, res, path, at, cands[0]);
  }

  /** One step of the loop of nextItinerary at the origin: a flight that
      cannot seat the reservation is passed over. */
  lemma BranchesSkip(fl: seq<Flight>, caps: seq<int>, res: Reservation, cands: seq<nat>)
    requires |caps| == |fl| && Partial(fl, caps, res, [], res.origin)
    requires DepartingFrom(fl, res.origin, cands) && cands != [] && caps[cands[0]] < res.count
    ensures DepartingFrom(fl, res.origin, cands[1..])
    ensures Branches(fl, caps, res, [], res.origin, cands) == Branches(fl, caps, res, [], res.origin, cands[1..])
  {
  }

  /** A first flight straight to the destination is an itinerary of its
      own when it has room, found before those of the later departures. */
  lemma StepDirect(fl: seq<Flight>, caps: seq<int>, res: Reservation, cands: seq<nat>)
    requires |caps| == |fl| && Partial(fl, caps, res, [], res.origin)
    requires DepartingFrom(fl, res.origin, cands) && cands != []
    requires fl[cands[0]].destination == res.destination
    ensures DepartingFrom(fl, res.origin, cands[1..])
    ensures Branches(fl, caps, res, [], res.origin, cands) ==
            (if caps[cands[0]] >= res.count then [[cands[0]]] else []) + Branches(fl, caps, res, [], res.origin, cands[1..])
  {
    if caps[cands[0]] >= res.count {
      BranchesTake(fl, caps, res, [], res.origin, cands);
      assert [] + [cands[0]] == [cands[0]];
    } else {
      BranchesSkip(fl, caps, res, cands);
    }
  }

  /** A first flight to a stop whose only departure is a flight to the
      destination gives one itinerary of two flights when both have room. */
  lemma StepOneStop(fl: seq<Flight>, caps: seq<int>, res: Reservation, cands: seq<nat>, next: nat)
    requires |caps| == |fl| && Partial(fl, caps, res, [], res.origin)
    requires DepartingFrom(fl, res.origin, cands) && cands != []
    requires fl[cands[0]].destination != res.destination
    requires FlightsByOrigin(fl, fl[cands[0]].destination) == [next] && next != cands[0]
    requires next < |fl| && fl[next].destination == res.destination
    ensures DepartingFrom(fl, res.origin, cands[1..])
    ensures Branches(fl, caps, res, [], res.origin, cands) ==
            (if caps[cands[0]] >= res.count && caps[next] >= res.count then [[cands[0], next]] else []) +
            Branches(fl, caps, res, [], res.origin, cands[1..])
  {
    var c := cands[0];
    if caps[c] >= res.count {
      BranchesTake(fl, caps, res, [], res.origin, cands);
      assert [] + [c] == [c];
      OneStop(fl, caps, res, c, next);
    } else {
      BranchesSkip(fl, caps, res, cands);
    }
  }

  /** A first flight to a place no flight leaves, short of the destination,
      leads nowhere. */
  lemma StepDeadEnd(fl: seq<Flight>, caps: seq<int>, res: Reservation, cands: seq<nat>)
    requires |caps| == |fl| && Partial(fl, caps, res, [], res.origin)
    requires DepartingFrom(fl, res.origin, cands) && cands != []
    requires fl[cands[0]].destination != res.destination && FlightsByOrigin(fl, fl[cands[0]].destination) == []
    ensures DepartingFrom(fl, res.origin, cands[1..])
    ensures Branches(fl, caps, res, [], res.origin, cands) == Branches(fl, caps, res, [], res.origin, cands[1..])
  {
    var c := cands[0];
    if caps[c] >= res.count {
      BranchesTake(fl, caps, res, [], res.origin, cands);
      assert [] + [c] == [c];
      assert Extend(fl, caps, res, [c], fl[c].destination) == Branches(fl, caps, res, [c], fl[c].destination, []);
    } else {
      BranchesSkip(fl, caps, res, cands);
    }
  }

  /** From the stop, the one departing flight completes the itinerary when
      it has room. */
  lemma OneStop(fl: seq<Flight>, caps: seq<int>, res: Reservation, c: nat, next: nat)
    requires |caps| == |fl| && c < |fl| && Partial(fl, caps, res, [c], fl[c].destination)
    requires fl[c].destination != res.destination
    requires FlightsByOrigin(fl, fl[c].destination) == [next] && next != c
    requires next < |fl| && fl[next].destination == res.destination
    ensures Extend(fl, caps, res, [c], fl[c].destination) == if caps[next] >= res.count then [[c, next]] else []
  {
    var at := fl[c].destination;
    assert [next][1..] == [];
    assert Extend(fl, caps, res, [c], at) == Branches(fl, caps, res, [c], at, [next]);
    BranchesNone(fl, caps, res, [c], at);
    if caps[next] >= res.count {
      BranchesTake(fl, caps, res, [c], at, [next]);
      assert [c] + [next] == [c, next];
      assert Extend(fl, caps, res, [c, next], res.destination) == [[c, next]];
    } else {
      assert Branches(fl, caps, res, [c], at, [next]) == Branches(fl, caps, res, [c], at, []);
    }
  }

  /** No flights to try: nothing is found. */
  lemma BranchesNone(fl: seq<Flight>, caps: seq<int>, res: Reservation, path: Path, at: string)
    requires |caps| == |fl| && Partial(fl, caps, res, path, at) && (|path| > 0 ==> at != res.destination)
    ensures Branches(fl, caps, res, path, at, []) == []
  {
  }

  // Completeness: the search finds every itinerary.

  lemma {:induction false} BranchesCovers(fl: seq<Flight>, caps: seq<int>, res: Reservation, path: Path, at: string,
                                          cands: seq<nat>, c: nat, q: Path)
    requires |caps| == |fl|
    requires Partial(fl, caps, res, path, at)
    requires |path| > 0 ==> at != res.destination
    requires DepartingFrom(fl, at, cands)
    requires c in cands && caps[c] >= res.count && c !in path
    requires Partial(fl, caps, res, path + [c], fl[c].destination)
    requires q in Extend(fl, caps, res, path + [c], fl[c].destination)
    ensures q in Branches(fl, caps, res, path, at, cands)
    decreases |cands|
  {
    if cands[0] != c {
      BranchesCovers(fl, caps, res, path, at, cands[1..], c, q);
    }
  }

  lemma {:induction false} ExtendComplete(fl: seq<Flight>, caps: seq<int>, res: Reservation, path: Path, at: string, p: Path)
    requires |caps| == |fl|
    requires Partial(fl, caps, res, path, at) && |path| > 0
    requires Itinerary(fl, caps, res, p) && |path| <= |p| && p[..|path|] == path
    ensures p in Extend(fl, caps, res, path, at)
    decreases |p| - |path|
  {
    var k := |path|;
    assert forall j :: 0 <= j < k ==> p[j] == path[j] by {
      forall j | 0 <= j < k ensures p[j] == path[j] {
        assert p[..k][j] == p[j];
      }
    }
    if at == res.destination {
      if k < |p| {
        assert false;
      }
      assert p == p[..k];
    } else {
      if k == |p| {
        assert false;
      }
      var c := p[k];
      assert fl[c].origin == at by {
        assert fl[p[k - 1]].destination == fl[p[k]].origin;
      }
      assert c !in path by {
        forall j | 0 <= j < k ensures path[j] != c {
          assert p[j] != p[k];
        }
      }
      PartialStep(fl, caps, res, path, at, c);
      assert p[..k + 1] == path + [c];
      ExtendComplete(fl, caps, res, path + [c], fl[c].destination, p);
      BranchesCovers(fl, caps, res, path, at, FlightsByOrigin(fl, at), c, p);
    }
  }

  /** The search returns exactly the itineraries: every one it returns is
      valid, and every valid one is returned. */
  lemma SearchExact(fl: seq<Flight>, caps: seq<int>, res: Reservation, p: Path)
    requires |caps| == |fl|
    ensures p in Search(fl, caps, res) <==> Itinerary(fl, caps, res, p)
  {
    if Itinerary(fl, caps, res, p) {
      var c := p[0];
      FirstFlight(fl, caps, res, p);
      assert [] + [c] == [c];
      ExtendComplete(fl, caps, res, [c], fl[c].destination, p);
      BranchesCovers(fl, caps, res, [], res.origin, FlightsByOrigin(fl, res.origin), c, p);
    }
  }

  /** The first flight of an itinerary starts a path of the search. */
  lemma FirstFlight(fl: seq<Flight>, caps: seq<int>, res: Reservation, p: Path)
    requires |caps| == |fl| && Itinerary(fl, caps, res, p)
    ensures |p| > 0 && p[0] < |fl| && p[..1] == [p[0]]
    ensures p[0] in FlightsByOrigin(fl, res.origin) && caps[p[0]] >= res.count
    ensures Partial(fl, caps, res, [], res.origin) && DepartingFrom(fl, res.origin, FlightsByOrigin(fl, res.origin))
    ensures Partial(fl, caps, res, [p[0]], fl[p[0]].destination)
  {
    var c := p[0];
    PartialStep(fl, caps, res, [], res.origin, c);
    assert [] + [c] == [c];
  }

  // Order: results come out depth first, following the flights sequence at
  // every node, which is lexicographic order on the index sequences.

  /** `a` comes before `b`: they agree up to a position where `a` takes the
      earlier flight. */
  predicate Precedes(a: Path, b: Path)
  {
    exists k :: 0 <= k < |a| && k < |b| && a[..k] == b[..k] && a[k] < b[k]
  }

  predicate LexSorted(s: seq<Path>)
  {
    forall i, j :: 0 <= i < j < |s| ==> Precedes(s[i], s[j])
  }

  predicate Increasing(cands: seq<nat>)
  {
    forall i, j :: 0 <= i < j < |cands| ==> cands[i] < cands[j]
  }

  lemma ConcatSorted(a: seq<Path>, b: seq<Path>)
    requires LexSorted(a) && LexSorted(b)
    requires forall x, y :: x in a && y in b ==> Precedes(x, y)
    ensures LexSorted(a + b)
  {
    var s := a + b;
    forall i, j | 0 <= i < j < |s| ensures Precedes(s[i], s[j]) {
      if j < |a| {
        assert s[i] == a[i] && s[j] == a[j];
      } else if i >= |a| {
        assert s[i] == b[i - |a|] && s[j] == b[j - |a|];
      } else {
        assert s[i] in a && s[j] in b;
      }
    }
  }

  lemma {:induction false} ExtendSorted(fl: seq<Flight>, caps: seq<int>, res: Reservation, path: Path, at: string)
    requires |caps| == |fl|
    requires Partial(fl, caps, res, path, at) && |path| > 0
    ensures LexSorted(Extend(fl, caps, res, path, at))
    decreases Unused(|fl|, path), 1, 0
  {
    if at != res.destination {
      BranchesSorted(fl, caps, res, path, at, FlightsByOrigin(fl, at));
    }
  }

  lemma {:induction false} BranchesSorted(fl: seq<Flight>, caps: seq<int>, res: Reservation, path: Path, at: string, cands: seq<nat>)
    requires |caps| == |fl|
    requires Partial(fl, caps, res, path, at)
    requires |path| > 0 ==> at != res.destination
    requires DepartingFrom(fl, at, cands) && Increasing(cands)
    ensures LexSorted(Branches(fl, caps, res, path, at, cands))
    decreases Unused(|fl|, path), 0, |cands|
  {
    if cands != [] {
      var c := cands[0];
      var here: seq<Path> := [];
      if caps[c] >= res.count && c !in path {
        UnusedShrinks(|fl|, path, c);
        PartialStep(fl, caps, res, path, at, c);
        here := Extend(fl, caps, res, path + [c], fl[c].destination);
        ExtendSorted(fl, caps, res, path + [c], fl[c].destination);
        PrefixStep(path, c, here);
      }
      var rest := Branches(fl, caps, res, path, at, cands[1..]);
      BranchesSorted(fl, caps, res, path, at, cands[1..]);
      assert Branches(fl, caps, res, path, at, cands) == here + rest;
      HereBeforeRest(path, cands, here, rest);
      ConcatSorted(here, rest);
    }
  }

  /** The paths through the first candidate come before those through the
      later ones. */
  lemma HereBeforeRest(path: Path, cands: seq<nat>, here: seq<Path>, rest: seq<Path>)
    requires cands != [] && Increasing(cands)
    requires forall x :: x in here ==> |path| < |x| && x[..|path|] == path && x[|path|] == cands[0]
    requires forall y :: y in rest ==> |path| < |y| && y[..|path|] == path && y[|path|] in cands[1..]
    ensures forall x, y :: x in here && y in rest ==> Precedes(x, y)
  {
    forall x, y | x in here && y in rest ensures Precedes(x, y) {
      var k := |path|;
      var j :| 0 <= j < |cands[1..]| && cands[1..][j] == y[k];
      assert cands[j + 1] == y[k];
      assert x[..k] == y[..k] && x[k] < y[k];
    }
  }

  /** The search lists its results in depth-first order, following the
      order of the flights sequence at every node; in particular no
      itinerary is listed twice. */
  lemma SearchOrdered(fl: seq<Flight>, caps: seq<int>, res: Reservation)
    requires |caps| == |fl|
    ensures LexSorted(Search(fl, caps, res))
    ensures forall i, j :: 0 <= i < j < |Search(fl, caps, res)| ==> Search(fl, caps, res)[i] != Search(fl, caps, res)[j]
  {
    var s := Search(fl, caps, res);
    BranchesSorted(fl, caps, res, [], res.origin, FlightsByOrigin(fl, res.origin));
    forall i, j | 0 <= i < j < |s| ensures s[i] != s[j] {
      assert Precedes(s[i], s[j]);
    }
  }
}
