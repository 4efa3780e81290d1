/** Worked cases from resolver.test.js, derived from the general contracts
    or by unfolding the search one step at a time. */
module Scenarios {
  import opened Wrappers
  import opened Flights
  import opened ItinerarySearch
  import opened Selection
  import opened Resolution

  // The getMinItinerary tests give itineraries as lists of capacities; here
  // each capacity is a flight of its own.

  /** Capacities 5 against 4: the second itinerary is the tighter. */
  lemma MinTrivialScenario(caps: seq<int>, its: seq<Path>)
    requires caps == [5, 4] && its == [[0], [1]]
    ensures AllInRange(|caps|, its)
    ensures MinItinerary(caps, its) == Some([1])
  {
    assert AllInRange(|caps|, its);
    assert TotalCapacity(caps, [0]) == 5 + TotalCapacity(caps, []);
    assert TotalCapacity(caps, [1]) == 4 + TotalCapacity(caps, []);
    var k :| 0 <= k < |its| && its[k] == MinItinerary(caps, its).value && FirstTightest(caps, its, k);
  }

  /** Capacity 9 against 4 and 3: the two-flight itinerary, of seven seats,
      is the tighter. */
  lemma MinScenario(caps: seq<int>, its: seq<Path>)
    requires caps == [9, 4, 3] && its == [[0], [1, 2]]
    ensures AllInRange(|caps|, its)
    ensures MinItinerary(caps, its) == Some([1, 2])
  {
    assert AllInRange(|caps|, its);
    assert TotalCapacity(caps, [0]) == 9 + TotalCapacity(caps, []);
    assert [1, 2][1..] == [2] && [2][1..] == [];
    assert TotalCapacity(caps, [1, 2]) == 4 + TotalCapacity(caps, [2]);
    assert TotalCapacity(caps, [2]) == 3 + TotalCapacity(caps, []);
    var k :| 0 <= k < |its| && its[k] == MinItinerary(caps, its).value && FirstTightest(caps, its, k);
  }

  /** A reservation no flight can seat finds nothing, and resolving it
      changes nothing. */
  lemma NoRoomUnresolved(fl: seq<Flight>, caps: seq<int>, rs: seq<Reservation>, index: nat)
    requires |caps| == |fl| && index < |rs|
    requires forall i :: 0 <= i < |caps| ==> caps[i] < rs[index].count
    ensures ResolveReservation(fl, caps, rs, index) == Outcome(None, caps)
  {
  }

  /** For the last reservation every candidate scores zero, so the
      committed itinerary has the least summed capacity of all found. */
  lemma LastIsTightest(fl: seq<Flight>, caps: seq<int>, rs: seq<Reservation>, index: nat, q: Path)
    requires |caps| == |fl| && index == |rs| - 1
    requires q in Search(fl, caps, rs[index])
    ensures var o := ResolveReservation(fl, caps, rs, index);
            o.chosen.Some? && o.chosen.value in Search(fl, caps, rs[index]) &&
            InRange(|caps|, o.chosen.value) && InRange(|caps|, q) &&
            TotalCapacity(caps, o.chosen.value) <= TotalCapacity(caps, q)
  {
    var its := Search(fl, caps, rs[index]);
    SearchInRange(fl, caps, rs[index]);
    ResolveChoice(fl, caps, rs, index);
    var p := ResolveReservation(fl, caps, rs, index).chosen.value;
    BestOfLast(fl, caps, rs, its, p, q);
    var i :| 0 <= i < |its| && its[i] == p && BestAt(fl, caps, rs, index, its, i);
  }

  /** The lookahead's choice for the last reservation has the least summed
      capacity. */
  lemma BestOfLast(fl: seq<Flight>, caps: seq<int>, rs: seq<Reservation>, its: seq<Path>, p: Path, q: Path)
    requires |caps| == |fl| && |rs| > 0 && AllInRange(|caps|, its) && q in its
    requires Lookahead(fl, caps, rs, |rs| - 1, its, p)
    ensures InRange(|caps|, p) && InRange(|caps|, q)
    ensures TotalCapacity(caps, p) <= TotalCapacity(caps, q)
  {
    var i :| 0 <= i < |its| && its[i] == p && BestAt(fl, caps, rs, |rs| - 1, its, i);
    var j :| 0 <= j < |its| && its[j] == q;
  }

  // Resolving one reservation of a run, for unfolding a run step by step.

  /** The committed itinerary of `rs[index]` when the search offers only
      `p`. */
  lemma OnlyCandidate(fl: seq<Flight>, caps: seq<int>, rs: seq<Reservation>, index: nat, p: Path)
    requires |caps| == |fl| && index < |rs| && Search(fl, caps, rs[index]) == [p]
    ensures ResolveReservation(fl, caps, rs, index).chosen == Some(p)
  {
    SearchInRange(fl, caps, rs[index]);
    ResolveChoice(fl, caps, rs, index);
    var o := ResolveReservation(fl, caps, rs, index);
    assert o.chosen.value in [p] by {
      var i :| 0 <= i < 1 && Search(fl, caps, rs[index])[i] == o.chosen.value
               && BestAt(fl, caps, rs, index, Search(fl, caps, rs[index]), i);
    }
  }

  /** What committing `p` for `rs[index]` leaves. */
  lemma Committed(fl: seq<Flight>, caps: seq<int>, rs: seq<Reservation>, index: nat, p: Path)
    requires |caps| == |fl| && index < |rs| && ResolveReservation(fl, caps, rs, index).chosen == Some(p)
    ensures TakenFrom(caps, ResolveReservation(fl, caps, rs, index).caps, p, rs[index].count)
  {
    ResolveUpdate(fl, caps, rs, index);
  }

  /** When the search offers two itineraries, the lookahead takes the first
      unless the second scores lower, or scores the same with fewer seats. */
  lemma ChooseOfTwo(fl: seq<Flight>, caps: seq<int>, rs: seq<Reservation>, index: nat, a: Path, b: Path, p: Path)
    requires |caps| == |fl| && index < |rs| && a != b
    requires InRange(|caps|, a) && InRange(|caps|, b) && AllInRange(|caps|, [a, b])
    requires Lookahead(fl, caps, rs, index, [a, b], p)
    ensures p == a || p == b
    ensures p == a ==> && Score(fl, caps, rs, index, a) <= Score(fl, caps, rs, index, b)
                       && (Score(fl, caps, rs, index, a) == Score(fl, caps, rs, index, b) ==>
                             TotalCapacity(caps, a) <= TotalCapacity(caps, b))
    ensures p == b ==> || Score(fl, caps, rs, index, b) < Score(fl, caps, rs, index, a)
                       || (Score(fl, caps, rs, index, b) == Score(fl, caps, rs, index, a) &&
                           TotalCapacity(caps, b) < TotalCapacity(caps, a))
  {
    var its: seq<Path> := [a, b];
    var i :| 0 <= i < |its| && its[i] == p && BestAt(fl, caps, rs, index, its, i);
    assert its[1 - i] in its;
  }

  /** The lookahead keeps the first of two candidates that scores lower than
      the second, or the same with no more seats. */
  lemma PickFirst(fl: seq<Flight>, caps: seq<int>, rs: seq<Reservation>, index: nat, a: Path, b: Path)
    requires |caps| == |fl| && index < |rs| && a != b
    requires Search(fl, caps, rs[index]) == [a, b] && InRange(|caps|, a) && InRange(|caps|, b)
    requires || Score(fl, caps, rs, index, a) < Score(fl, caps, rs, index, b)
             || (Score(fl, caps, rs, index, a) == Score(fl, caps, rs, index, b) &&
                 TotalCapacity(caps, a) <= TotalCapacity(caps, b))
    ensures ResolveReservation(fl, caps, rs, index).chosen == Some(a)
  {
    SearchInRange(fl, caps, rs[index]);
    ResolveChoice(fl, caps, rs, index);
    var o := ResolveReservation(fl, caps, rs, index);
    ChooseOfTwo(fl, caps, rs, index, a, b, o.chosen.value);
  }

  // A run of resolveAll, unfolded from its last step back to its first.

  /** One more step of the loop of resolveAll, in front of the rest of the
      run. */
  lemma RunStep(fl: seq<Flight>, caps: seq<int>, sorted: seq<Reservation>, index: nat, chosen: Option<Path>,
                next: seq<int>, entries: seq<Entry>, last: seq<int>)
    requires |caps| == |fl| && index < |sorted| && index < |entries|
    requires ResolveReservation(fl, caps, sorted, index) == Outcome(chosen, next)
    requires entries[index] == Entry(sorted[index], chosen)
    requires ResolveFrom(fl, next, sorted, index + 1) == Resolution(entries[index + 1..], last)
    ensures ResolveFrom(fl, caps, sorted, index) == Resolution(entries[index..], last)
  {
    EntriesSplit(entries, index);
  }

  /** The whole run is its first step in front of the rest. */
  lemma RunStart(fl: seq<Flight>, caps: seq<int>, sorted: seq<Reservation>, chosen: Option<Path>,
                 next: seq<int>, entries: seq<Entry>, last: seq<int>)
    requires |caps| == |fl| && 0 < |sorted| && 0 < |entries|
    requires ResolveReservation(fl, caps, sorted, 0) == Outcome(chosen, next)
    requires entries[0] == Entry(sorted[0], chosen)
    requires ResolveFrom(fl, next, sorted, 1) == Resolution(entries[1..], last)
    ensures ResolveFrom(fl, caps, sorted, 0) == Resolution(entries, last)
  {
    RunStep(fl, caps, sorted, 0, chosen, next, entries, last);
    WholeSuffix(entries);
  }

  lemma WholeSuffix<T>(s: seq<T>)
    ensures s[0..] == s
  {
  }

  /** Past the last reservation the run yields nothing and keeps the
      capacities. */
  lemma RunEnd(fl: seq<Flight>, caps: seq<int>, sorted: seq<Reservation>, entries: seq<Entry>)
    requires |caps| == |fl| && |entries| == |sorted|
    ensures ResolveFrom(fl, caps, sorted, |sorted|) == Resolution(entries[|sorted|..], caps)
  {
    assert entries[|sorted|..] == [];
  }

  lemma EntriesSplit(entries: seq<Entry>, index: nat)
    requires index < |entries|
    ensures entries[index..] == [entries[index]] + entries[index + 1..]
  {
  }

  /** One more entry of the result object, under an id not yet in it. */
  lemma ResultStep(fl: seq<Flight>, entries: seq<Entry>, index: nat, rest: map<string, Option<seq<string>>>)
    requires EntriesInRange(|fl|, entries) && index < |entries|
    requires ResultMap(fl, entries[index + 1..]) == rest
    requires entries[index].reservation.id !in rest
    ensures ResultMap(fl, entries[index..]) == rest[entries[index].reservation.id := Resolved(fl, entries[index])]
  {
    assert entries[index..][0] == entries[index] && entries[index..][1..] == entries[index + 1..];
    MergeFresh(entries[index].reservation.id, Resolved(fl, entries[index]), rest);
  }

  /** The same, for an entry whose id and answer are known. */
  lemma ResultStepAt(fl: seq<Flight>, entries: seq<Entry>, index: nat, rest: map<string, Option<seq<string>>>,
                     id: string, answer: Option<seq<string>>)
    requires EntriesInRange(|fl|, entries) && index < |entries|
    requires ResultMap(fl, entries[index + 1..]) == rest
    requires entries[index].reservation.id == id && Resolved(fl, entries[index]) == answer && id !in rest
    ensures ResultMap(fl, entries[index..]) == rest[id := answer]
  {
    ResultStep(fl, entries, index, rest);
  }

  /** The whole result object: the first entry in front of the rest. */
  lemma ResultStart(fl: seq<Flight>, entries: seq<Entry>, rest: map<string, Option<seq<string>>>,
                    id: string, answer: Option<seq<string>>)
    requires EntriesInRange(|fl|, entries) && 0 < |entries|
    requires ResultMap(fl, entries[1..]) == rest
    requires entries[0].reservation.id == id && Resolved(fl, entries[0]) == answer && id !in rest
    ensures ResultMap(fl, entries) == rest[id := answer]
  {
    ResultStepAt(fl, entries, 0, rest, id, answer);
    WholeSuffix(entries);
  }

  /** Past the last entry the result object is empty. */
  lemma ResultEnd(fl: seq<Flight>, entries: seq<Entry>)
    requires EntriesInRange(|fl|, entries)
    ensures ResultMap(fl, entries[|entries|..]) == map[]
  {
    assert entries[|entries|..] == [];
  }

  lemma IdsOne(fl: seq<Flight>, c: nat)
    requires c < |fl|
    ensures Ids(fl, [c]) == [fl[c].id]
  {
    assert [c][1..] == [];
  }

  lemma IdsTwo(fl: seq<Flight>, c: nat, d: nat)
    requires c < |fl| && d < |fl|
    ensures Ids(fl, [c, d]) == [fl[c].id, fl[d].id]
  {
    assert [c, d][1..] == [d];
    IdsOne(fl, d);
  }

  // Summed capacities of one- and two-flight itineraries.

  lemma Total1(caps: seq<int>, c: nat)
    requires c < |caps|
    ensures TotalCapacity(caps, [c]) == caps[c]
  {
    assert [c][1..] == [];
  }

  lemma Total2(caps: seq<int>, c: nat, d: nat)
    requires c < |caps| && d < |caps|
    ensures TotalCapacity(caps, [c, d]) == caps[c] + caps[d]
  {
    assert [c, d][1..] == [d];
    Total1(caps, d);
  }

  // Sequence displays, for lists built element by element.

  lemma Cons2<T>(a: T, b: T)
    ensures [a] + [b] == [a, b]
  {
  }

  lemma Cons3<T>(a: T, b: T, c: T)
    ensures [a] + ([b] + [c]) == [a, b, c]
  {
  }

  lemma Cons4<T>(a: T, b: T, c: T, d: T)
    ensures [a] + ([b] + ([c] + [d])) == [a, b, c, d]
  {
  }

  lemma MergeFresh<K, V>(k: K, v: V, m: map<K, V>)
    requires k !in m
    ensures map[k := v] + m == m[k := v]
  {
  }
}
