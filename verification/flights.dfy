/** Flights, reservations and the capacity updates of the resolver.

    A flight is identified by its position in the flights sequence, so the
    identity test `itinerary.indexOf(flight)` of resolver.js becomes a test on
    indices. The mutable `capacity` field of every flight is held apart from
    the immutable flight records, as a sequence `caps` parallel to them. */
module Flights {

  /** An itinerary: flight indices in travel order. */
  type Path = seq<nat>

  datatype Flight = Flight(id: string, origin: string, destination: string)

  datatype Reservation = Reservation(id: string, count: int, origin: string, destination: string)

  /** Every index of `p` names one of `n` flights. */
  predicate InRange(n: nat, p: Path)
  {
    forall j :: 0 <= j < |p| ==> p[j] < n
  }

  /** No flight occurs twice in `p`. */
  predicate Distinct(p: Path)
  {
    forall i, j :: 0 <= i < j < |p| ==> p[i] != p[j]
  }

  /** Every capacity is non-negative. */
  predicate NonNegative(caps: seq<int>)
  {
    forall i :: 0 <= i < |caps| ==> caps[i] >= 0
  }

  /** The indices, from `k` on, of the flights departing `origin`, in order. */
  function Departures(fl: seq<Flight>, origin: string, k: nat): (r: seq<nat>)
    ensures forall j :: 0 <= j < |r| ==> k <= r[j] < |fl| && fl[r[j]].origin == origin
    ensures forall i :: k <= i < |fl| && fl[i].origin == origin ==> i in r
    ensures forall i, j :: 0 <= i < j < |r| ==> r[i] < r[j]
    decreases |fl| - k
  {
    if k >= |fl| then []
    else
      var rest := Departures(fl, origin, k + 1);
      if fl[k].origin == origin then [k] + rest else rest
  }

  /** The flights departing `origin`, kept in the order of the flights
      sequence (a filter). */
  function FlightsByOrigin(fl: seq<Flight>, origin: string): (r: seq<nat>)
    ensures forall j :: 0 <= j < |r| ==> r[j] < |fl| && fl[r[j]].origin == origin
    ensures forall i :: 0 <= i < |fl| && fl[i].origin == origin ==> i in r
    ensures forall i, j :: 0 <= i < j < |r| ==> r[i] < r[j]
  {
    Departures(fl, origin, 0)
  }

  /** Takes `n` seats from every flight of `p`, once per occurrence. */
  function Apply(caps: seq<int>, p: Path, n: int): (r: seq<int>)
    requires InRange(|caps|, p)
    ensures |r| == |caps|
    ensures forall i: nat :: i < |caps| ==> r[i] == caps[i] - n * multiset(p)[i]
    decreases p
  {
    if p == [] then caps
    else
      var r := Apply(caps[p[0] := caps[p[0]] - n], p[1..], n);
      HeadOccurrences(p, n);
      r
  }

  /** Gives `n` seats back to every flight of `p`, once per occurrence. */
  function Recover(caps: seq<int>, p: Path, n: int): (r: seq<int>)
    requires InRange(|caps|, p)
    ensures |r| == |caps|
    ensures forall i: nat :: i < |caps| ==> r[i] == caps[i] + n * multiset(p)[i]
    decreases p
  {
    if p == [] then caps
    else
      var r := Recover(caps[p[0] := caps[p[0]] + n], p[1..], n);
      HeadOccurrences(p, n);
      r
  }

  /** The first flight of `p` adds one occurrence to the rest's. */
  lemma HeadOccurrences(p: Path, n: int)
    requires p != []
    ensures forall i: nat :: n * multiset(p)[i] == (if i == p[0] then n else 0) + n * multiset(p[1..])[i]
  {
    assert p == [p[0]] + p[1..];
    forall i: nat ensures n * multiset(p)[i] == (if i == p[0] then n else 0) + n * multiset(p[1..])[i] {
      var k := multiset(p[1..])[i];
      if i == p[0] {
        assert multiset(p)[i] == k + 1;
        assert n * (k + 1) == n + n * k;
      } else {
        assert multiset(p)[i] == k;
      }
    }
  }

  /** Recovering what was applied restores the capacities exactly. */
  lemma RecoverApply(caps: seq<int>, p: Path, n: int)
    requires InRange(|caps|, p)
    ensures Recover(Apply(caps, p, n), p, n) == caps
  {
  }

  /** Applying what was recovered restores the capacities exactly. */
  lemma ApplyRecover(caps: seq<int>, p: Path, n: int)
    requires InRange(|caps|, p)
    ensures Apply(Recover(caps, p, n), p, n) == caps
  {
  }

  /** Giving back a non-negative count never lowers a capacity. */
  lemma RecoverGrows(caps: seq<int>, p: Path, n: int)
    requires InRange(|caps|, p)
    ensures n >= 0 ==> forall i :: 0 <= i < |caps| ==> Recover(caps, p, n)[i] >= caps[i]
  {
    if n >= 0 {
      forall i | 0 <= i < |caps| ensures Recover(caps, p, n)[i] >= caps[i] {
        assert n * multiset(p)[i] >= 0;
      }
    }
  }

  /** Two recoveries commute. */
  lemma RecoverCommute(caps: seq<int>, p: Path, n: int, q: Path, m: int)
    requires InRange(|caps|, p) && InRange(|caps|, q)
    ensures Recover(Recover(caps, p, n), q, m) == Recover(Recover(caps, q, m), p, n)
  {
    var a, b := Recover(Recover(caps, p, n), q, m), Recover(Recover(caps, q, m), p, n);
    forall i: nat | i < |caps| ensures a[i] == b[i] {
      assert a[i] == caps[i] + n * multiset(p)[i] + m * multiset(q)[i];
    }
  }

  /** In a path without repeats every flight occurs at most once. */
  lemma {:induction false} DistinctOccurrences(p: Path, i: nat)
    requires Distinct(p)
    ensures multiset(p)[i] == if i in p then 1 else 0
  {
    if p != [] {
      assert p == [p[0]] + p[1..];
      assert Distinct(p[1..]) by {
        forall a, b | 0 <= a < b < |p[1..]| ensures p[1..][a] != p[1..][b] {
          assert p[1..][a] == p[a + 1] && p[1..][b] == p[b + 1];
        }
      }
      DistinctOccurrences(p[1..], i);
      if p[0] == i {
        assert i !in p[1..] by {
          forall j | 0 <= j < |p[1..]| ensures p[1..][j] != i {
            assert p[1..][j] == p[j + 1];
          }
        }
      }
    }
  }

  /** Applying a path without repeats takes `n` seats from exactly its
      flights and leaves every other flight as it was. */
  lemma ApplyDistinct(caps: seq<int>, p: Path, n: int)
    requires InRange(|caps|, p) && Distinct(p)
    ensures forall i: nat :: i < |caps| ==> Apply(caps, p, n)[i] == if i in p then caps[i] - n else caps[i]
  {
    forall i: nat | i < |caps|
      ensures Apply(caps, p, n)[i] == if i in p then caps[i] - n else caps[i]
    {
      DistinctOccurrences(p, i);
    }
  }

  /** The summed capacity of a path (the reducer of getMinItinerary). */
  function TotalCapacity(caps: seq<int>, p: Path): (r: int)
    requires InRange(|caps|, p)
    ensures NonNegative(caps) ==> r >= 0
    ensures p != [] && NonNegative(caps) ==> r >= caps[p[0]]
  {
    if p == [] then 0 else caps[p[0]] + TotalCapacity(caps, p[1..])
  }

  /** The flight ids of a path, in path order. */
  function Ids(fl: seq<Flight>, p: Path): (r: seq<string>)
    requires InRange(|fl|, p)
    ensures |r| == |p|
    ensures forall j :: 0 <= j < |p| ==> r[j] == fl[p[j]].id
  {
    if p == [] then [] else [fl[p[0]].id] + Ids(fl, p[1..])
  }
}
