/** The resolution loop: resolveReservation and resolveAll in resolver.js.
    Reservations are ordered by count, largest first, and resolved one after
    another; each commit takes seats that later reservations no longer see. */
module Resolution {
  import opened Wrappers
  import opened Flights
  import opened ItinerarySearch
  import opened Selection

  // Ordering. `Array.prototype.sort` is stable (section 22.1.3.27 of
  // ECMA-262, 2019 edition), so reservations of equal count keep their input
  // order; a stable insertion sort gives the same sequence.

  predicate ByCountDescending(rs: seq<Reservation>)
  {
    forall i, j :: 0 <= i < j < |rs| ==> rs[i].count >= rs[j].count
  }

  /** The reservations of count `c`, in order. */
  function WithCount(rs: seq<Reservation>, c: int): seq<Reservation>
  {
    if rs == [] then []
    else (if rs[0].count == c then [rs[0]] else []) + WithCount(rs[1..], c)
  }

  lemma {:induction false} WithCountAppend(rs: seq<Reservation>, x: Reservation, c: int)
    ensures WithCount(rs + [x], c) == WithCount(rs, c) + (if x.count == c then [x] else [])
  {
    if rs != [] {
      assert (rs + [x])[1..] == rs[1..] + [x];
      WithCountAppend(rs[1..], x, c);
    }
  }

  lemma {:induction false} WithCountNone(rs: seq<Reservation>, c: int)
    requires forall i :: 0 <= i < |rs| ==> rs[i].count < c
    ensures WithCount(rs, c) == []
  {
    if rs != [] {
      WithCountNone(rs[1..], c);
    }
  }

  /** Puts `x` after every reservation of at least its count. */
  function Insert(s: seq<Reservation>, x: Reservation): (r: seq<Reservation>)
    requires ByCountDescending(s)
    ensures ByCountDescending(r)
    ensures |r| == |s| + 1
    ensures r[0] == if s != [] && s[0].count >= x.count then s[0] else x
  {
    if s == [] then [x]
    else if s[0].count >= x.count then
      var t := Insert(s[1..], x);
      assert forall j :: 0 <= j < |t| ==> t[j].count <= t[0].count <= s[0].count;
      [s[0]] + t
    else [x] + s
  }

  /** Inserting adds `x` and loses nothing. */
  lemma {:induction false} InsertPermutes(s: seq<Reservation>, x: Reservation)
    requires ByCountDescending(s)
    ensures multiset(Insert(s, x)) == multiset(s) + multiset{x}
  {
    if s != [] && s[0].count >= x.count {
      InsertPermutes(s[1..], x);
      assert s == [s[0]] + s[1..];
    }
  }

  /** Inserting keeps the reservations of each count in order, `x` after
      those already there. */
  lemma {:induction false} InsertStable(s: seq<Reservation>, x: Reservation, c: int)
    requires ByCountDescending(s)
    ensures WithCount(Insert(s, x), c) == WithCount(s, c) + (if x.count == c then [x] else [])
  {
    if s == [] {
      assert WithCount([x], c) == (if x.count == c then [x] else []) + WithCount([], c);
    } else if s[0].count >= x.count {
      TailSorted(s);
      InsertStable(s[1..], x, c);
      InsertBehind(s, x, c);
    } else {
      InsertFront(s, x, c);
    }
  }

  lemma InsertBehind(s: seq<Reservation>, x: Reservation, c: int)
    requires s != [] && ByCountDescending(s) && s[0].count >= x.count && ByCountDescending(s[1..])
    requires WithCount(Insert(s[1..], x), c) == WithCount(s[1..], c) + (if x.count == c then [x] else [])
    ensures WithCount(Insert(s, x), c) == WithCount(s, c) + (if x.count == c then [x] else [])
  {
    WithCountCons(s[0], Insert(s[1..], x), c);
    WithCountCons(s[0], s[1..], c);
    assert [s[0]] + s[1..] == s;
  }

  lemma InsertFront(s: seq<Reservation>, x: Reservation, c: int)
    requires s != [] && ByCountDescending(s) && s[0].count < x.count
    ensures WithCount(Insert(s, x), c) == WithCount(s, c) + (if x.count == c then [x] else [])
  {
    WithCountCons(x, s, c);
    if x.count == c {
      WithCountNone(s, c);
    }
  }

  lemma TailSorted(s: seq<Reservation>)
    requires s != [] && ByCountDescending(s)
    ensures ByCountDescending(s[1..])
  {
  }

  lemma WithCountCons(x: Reservation, rs: seq<Reservation>, c: int)
    ensures WithCount([x] + rs, c) == (if x.count == c then [x] else []) + WithCount(rs, c)
  {
    assert ([x] + rs)[1..] == rs;
  }

  /** The reservations by count, largest first. */
  function SortByCount(rs: seq<Reservation>): (r: seq<Reservation>)
    ensures ByCountDescending(r)
    ensures |r| == |rs|
  {
    if rs == [] then []
    else Insert(SortByCount(rs[..|rs| - 1]), rs[|rs| - 1])
  }

  /** The sort is a permutation. */
  lemma {:induction false} SortPermutes(rs: seq<Reservation>)
    ensures multiset(SortByCount(rs)) == multiset(rs)
  {
    if rs != [] {
      var init, x := rs[..|rs| - 1], rs[|rs| - 1];
      assert rs == init + [x];
      SortPermutes(init);
      InsertPermutes(SortByCount(init), x);
    }
  }

  /** The sort is stable: the reservations of each count keep their input
      order. */
  lemma {:induction false} SortStable(rs: seq<Reservation>, c: int)
    ensures WithCount(SortByCount(rs), c) == WithCount(rs, c)
  {
    if rs != [] {
      var init, x := rs[..|rs| - 1], rs[|rs| - 1];
      assert rs == init + [x];
      SortStable(init, c);
      InsertStable(SortByCount(init), x, c);
      WithCountAppend(init, x, c);
    }
  }

  /** Insertion places the reservation after the `k` leading reservations
      of no smaller count, before the first of smaller count. */
  lemma {:induction false} InsertAt(s: seq<Reservation>, x: Reservation, k: nat)
    requires ByCountDescending(s) && k <= |s|
    requires forall i :: 0 <= i < k ==> s[i].count >= x.count
    requires k < |s| ==> s[k].count < x.count
    ensures Insert(s, x) == s[..k] + [x] + s[k..]
  {
    if k > 0 {
      var t := s[1..];
      InsertHead(s, x);
      assert forall i :: 0 <= i < k - 1 ==> t[i].count >= x.count;
      InsertAt(t, x, k - 1);
      SplitAfterHead(s, x, k);
    } else {
      assert s[..0] + [x] + s[0..] == [x] + s;
    }
  }

  /** A reservation of no smaller count stays in front of the insertion. */
  lemma InsertHead(s: seq<Reservation>, x: Reservation)
    requires ByCountDescending(s) && s != [] && s[0].count >= x.count
    ensures ByCountDescending(s[1..])
    ensures Insert(s, x) == [s[0]] + Insert(s[1..], x)
  {
    TailSorted(s);
  }

  lemma SplitAfterHead(s: seq<Reservation>, x: Reservation, k: nat)
    requires 0 < k <= |s|
    ensures [s[0]] + (s[1..][..k - 1] + [x] + s[1..][k - 1..]) == s[..k] + [x] + s[k..]
  {
    assert s[..k] == [s[0]] + s[1..][..k - 1];
    assert s[k..] == s[1..][k - 1..];
  }

  /** Sorting one more reservation inserts it into the sorted rest. */
  lemma SortSnoc(init: seq<Reservation>, x: Reservation)
    ensures SortByCount(init + [x]) == Insert(SortByCount(init), x)
  {
    assert (init + [x])[..|init|] == init;
  }

  /** Reservations already in order come out of the sort unchanged. */
  lemma {:induction false} SortSorted(rs: seq<Reservation>)
    requires ByCountDescending(rs)
    ensures SortByCount(rs) == rs
  {
    if rs != [] {
      var init, x := rs[..|rs| - 1], rs[|rs| - 1];
      assert ByCountDescending(init);
      SortSorted(init);
      InsertAt(init, x, |init|);
      assert init[..|init|] + [x] + init[|init|..] == rs;
    }
  }

  // One reservation.

  /** What resolving one reservation leaves behind: the committed itinerary,
      if any, and the capacities after the commit. */
  datatype Outcome = Outcome(chosen: Option<Path>, caps: seq<int>)

  /** resolveReservation: search for `rs[index]`; with no itinerary the
      reservation is unresolved and nothing changes, otherwise the lookahead
      choice is committed. */
  function ResolveReservation(fl: seq<Flight>, caps: seq<int>, rs: seq<Reservation>, index: nat): (o: Outcome)
    requires |caps| == |fl| && index < |rs|
    ensures |o.caps| == |caps|
    ensures o.chosen.None? <==> |Search(fl, caps, rs[index])| == 0
    ensures o.chosen.None? ==> o.caps == caps
  {
    var its := Search(fl, caps, rs[index]);
    SearchInRange(fl, caps, rs[index]);
    if |its| == 0 then Outcome(None, caps)
    else
      var p := OptimalItinerary(fl, caps, rs, index, its).value;
      Outcome(Some(p), Apply(caps, p, rs[index].count))
  }

  /** A committed itinerary is an itinerary for the reservation and the
      lookahead's choice among all the itineraries found. */
  lemma ResolveChoice(fl: seq<Flight>, caps: seq<int>, rs: seq<Reservation>, index: nat)
    requires |caps| == |fl| && index < |rs|
    ensures var o := ResolveReservation(fl, caps, rs, index);
            o.chosen.Some? ==>
              && Itinerary(fl, caps, rs[index], o.chosen.value)
              && (SearchInRange(fl, caps, rs[index]);
                  Lookahead(fl, caps, rs, index, Search(fl, caps, rs[index]), o.chosen.value))
  {
    var o := ResolveReservation(fl, caps, rs, index);
    if o.chosen.Some? {
      CommitFound(fl, caps, rs[index], o.chosen.value);
    }
  }

  /** `after` is `caps` with `n` seats taken from exactly the flights at
      positions `on`. */
  predicate TakenFrom(caps: seq<int>, after: seq<int>, on: Path, n: int)
  {
    |after| == |caps| && forall i :: 0 <= i < |caps| ==> after[i] == if i in on then caps[i] - n else caps[i]
  }

  /** Committing takes the reservation's seats from each flight of the
      chosen itinerary once and leaves every other flight alone. */
  lemma ResolveUpdate(fl: seq<Flight>, caps: seq<int>, rs: seq<Reservation>, index: nat)
    requires |caps| == |fl| && index < |rs|
    ensures var o := ResolveReservation(fl, caps, rs, index);
            o.chosen.Some? ==> TakenFrom(caps, o.caps, o.chosen.value, rs[index].count)
  {
    var o := ResolveReservation(fl, caps, rs, index);
    if o.chosen.Some? {
      var p := o.chosen.value;
      assert p in Search(fl, caps, rs[index]) && o.caps == Apply(caps, p, rs[index].count);
      CommitFound(fl, caps, rs[index], p);
    }
  }

  /** A found itinerary is an itinerary, and committing it takes the
      reservation's seats from each of its flights once. */
  lemma CommitFound(fl: seq<Flight>, caps: seq<int>, res: Reservation, p: Path)
    requires |caps| == |fl| && p in Search(fl, caps, res)
    ensures Itinerary(fl, caps, res, p)
    ensures TakenFrom(caps, Apply(caps, p, res.count), p, res.count)
  {
    ApplyDistinct(caps, p, res.count);
  }

  /** A committed itinerary keeps capacities non-negative: each of its
      flights had at least `count` seats. */
  lemma CommitNonNegative(fl: seq<Flight>, caps: seq<int>, rs: seq<Reservation>, index: nat)
    requires |caps| == |fl| && index < |rs|
    ensures NonNegative(caps) ==> NonNegative(ResolveReservation(fl, caps, rs, index).caps)
  {
    var o := ResolveReservation(fl, caps, rs, index);
    ResolveChoice(fl, caps, rs, index);
    ResolveUpdate(fl, caps, rs, index);
    if NonNegative(caps) && o.chosen.Some? {
      var p := o.chosen.value;
      forall i | 0 <= i < |caps| ensures o.caps[i] >= 0 {
        if i in p {
          var j :| 0 <= j < |p| && p[j] == i;
          assert caps[p[j]] >= rs[index].count;
        }
      }
    }
  }

  // The whole run.

  datatype Entry = Entry(reservation: Reservation, itinerary: Option<Path>)

  /** The entries in processing order and the final capacities. */
  datatype Resolution = Resolution(entries: seq<Entry>, caps: seq<int>)

  function Requests(entries: seq<Entry>): (r: seq<Reservation>)
    ensures |r| == |entries|
    ensures forall k :: 0 <= k < |entries| ==> r[k] == entries[k].reservation
  {
    if entries == [] then [] else [entries[0].reservation] + Requests(entries[1..])
  }

  lemma SuffixCons(s: seq<Reservation>, i: nat)
    requires i < |s|
    ensures s[i..] == [s[i]] + s[i + 1..]
  {
  }

  lemma RequestsCons(e: Entry, entries: seq<Entry>)
    ensures Requests([e] + entries) == [e.reservation] + Requests(entries)
  {
    assert ([e] + entries)[1..] == entries;
  }

  /** The loop of resolveAll from position `index` of the ordered
      reservations; capacities are threaded from one reservation to the
      next. */
  function ResolveFrom(fl: seq<Flight>, caps: seq<int>, sorted: seq<Reservation>, index: nat): (r: Resolution)
    requires |caps| == |fl| && index <= |sorted|
    ensures |r.caps| == |caps|
    ensures Requests(r.entries) == sorted[index..]
    decreases |sorted| - index
  {
    if index == |sorted| then Resolution([], caps)
    else
      var o := ResolveReservation(fl, caps, sorted, index);
      var rest := ResolveFrom(fl, o.caps, sorted, index + 1);
      var r := Resolution([Entry(sorted[index], o.chosen)] + rest.entries, rest.caps);
      SuffixCons(sorted, index);
      RequestsCons(Entry(sorted[index], o.chosen), rest.entries);
      r
  }

  /** Every committed itinerary is a route for its reservation. */
  predicate Routed(fl: seq<Flight>, entries: seq<Entry>)
  {
    forall k :: 0 <= k < |entries| && entries[k].itinerary.Some? ==>
      Route(fl, entries[k].reservation, entries[k].itinerary.value)
  }

  lemma {:induction false} ResolveFromInvariants(fl: seq<Flight>, caps: seq<int>, sorted: seq<Reservation>, index: nat)
    requires |caps| == |fl| && index <= |sorted|
    ensures NonNegative(caps) ==> NonNegative(ResolveFrom(fl, caps, sorted, index).caps)
    ensures Routed(fl, ResolveFrom(fl, caps, sorted, index).entries)
    decreases |sorted| - index
  {
    if index < |sorted| {
      var o := ResolveReservation(fl, caps, sorted, index);
      ResolveChoice(fl, caps, sorted, index);
      CommitNonNegative(fl, caps, sorted, index);
      ResolveFromInvariants(fl, o.caps, sorted, index + 1);
      var rest := ResolveFrom(fl, o.caps, sorted, index + 1);
      var entries := ResolveFrom(fl, caps, sorted, index).entries;
      assert entries == [Entry(sorted[index], o.chosen)] + rest.entries;
      forall k | 0 <= k < |entries| && entries[k].itinerary.Some?
        ensures Route(fl, entries[k].reservation, entries[k].itinerary.value)
      {
        if k > 0 {
          assert entries[k] == rest.entries[k - 1];
        }
      }
    }
  }

  /** resolveAll: order the reservations and resolve them in turn. */
  function ResolveAll(fl: seq<Flight>, caps: seq<int>, rs: seq<Reservation>): (r: Resolution)
    requires |caps| == |fl|
    ensures |r.caps| == |caps|
    ensures multiset(Requests(r.entries)) == multiset(rs)
    ensures ByCountDescending(Requests(r.entries))
  {
    var sorted := SortByCount(rs);
    SortPermutes(rs);
    assert sorted[0..] == sorted;
    ResolveFrom(fl, caps, sorted, 0)
  }

  /** Over a whole run: reservations of equal count are processed in input
      order, capacities that start non-negative stay so, and every committed
      itinerary is a route for its reservation. */
  lemma RunInvariants(fl: seq<Flight>, caps: seq<int>, rs: seq<Reservation>)
    requires |caps| == |fl|
    ensures forall c :: WithCount(Requests(ResolveAll(fl, caps, rs).entries), c) == WithCount(rs, c)
    ensures NonNegative(caps) ==> NonNegative(ResolveAll(fl, caps, rs).caps)
    ensures Routed(fl, ResolveAll(fl, caps, rs).entries)
  {
    var sorted := SortByCount(rs);
    assert sorted[0..] == sorted;
    ResolveFromInvariants(fl, caps, sorted, 0);
    forall c ensures WithCount(Requests(ResolveAll(fl, caps, rs).entries), c) == WithCount(rs, c) {
      SortStable(rs, c);
    }
  }

  lemma RoutedInRange(fl: seq<Flight>, entries: seq<Entry>)
    requires Routed(fl, entries)
    ensures EntriesInRange(|fl|, entries)
  {
  }

  // The round trip of the tests: giving every committed reservation's
  // seats back to its flights restores the initial capacities.

  predicate EntriesInRange(n: nat, entries: seq<Entry>)
  {
    forall k :: 0 <= k < |entries| && entries[k].itinerary.Some? ==> InRange(n, entries[k].itinerary.value)
  }

  /** Returns the seats of one entry, if it was committed. */
  function GiveBack(caps: seq<int>, e: Entry): (r: seq<int>)
    requires e.itinerary.Some? ==> InRange(|caps|, e.itinerary.value)
    ensures |r| == |caps|
    ensures e.itinerary.None? ==> r == caps
    ensures e.itinerary.Some? ==> InRange(|r|, e.itinerary.value) && Apply(r, e.itinerary.value, e.reservation.count) == caps
    ensures e.reservation.count >= 0 ==> forall i :: 0 <= i < |caps| ==> r[i] >= caps[i]
  {
    match e.itinerary
    case None => caps
    case Some(p) =>
      ApplyRecover(caps, p, e.reservation.count);
      RecoverGrows(caps, p, e.reservation.count);
      Recover(caps, p, e.reservation.count)
  }

  /** Gives back every entry in order, as the tests' proveResolution does. */
  function Replay(caps: seq<int>, entries: seq<Entry>): (r: seq<int>)
    requires EntriesInRange(|caps|, entries)
    ensures |r| == |caps|
    ensures (forall k :: 0 <= k < |entries| ==> entries[k].reservation.count >= 0) ==>
              forall i :: 0 <= i < |caps| ==> r[i] >= caps[i]
    ensures (forall k :: 0 <= k < |entries| ==> entries[k].itinerary.None?) ==> r == caps
    decreases |entries|
  {
    if entries == [] then caps
    else
      var back := GiveBack(caps, entries[0]);
      assert forall k :: 1 <= k < |entries| ==> entries[1..][k - 1] == entries[k];
      Replay(back, entries[1..])
  }

  lemma {:induction false} ReplayRecover(caps: seq<int>, entries: seq<Entry>, p: Path, n: int)
    requires EntriesInRange(|caps|, entries) && InRange(|caps|, p)
    ensures Replay(Recover(caps, p, n), entries) == Recover(Replay(caps, entries), p, n)
    decreases |entries|
  {
    if entries != [] {
      var e := entries[0];
      if e.itinerary.Some? {
        RecoverCommute(caps, p, n, e.itinerary.value, e.reservation.count);
      }
      ReplayRecover(GiveBack(caps, e), entries[1..], p, n);
    }
  }

  lemma {:induction false} ResolveFromRoundTrip(fl: seq<Flight>, caps: seq<int>, sorted: seq<Reservation>, index: nat)
    requires |caps| == |fl| && index <= |sorted|
    ensures EntriesInRange(|caps|, ResolveFrom(fl, caps, sorted, index).entries)
    ensures Replay(ResolveFrom(fl, caps, sorted, index).caps, ResolveFrom(fl, caps, sorted, index).entries) == caps
    decreases |sorted| - index
  {
    var r := ResolveFrom(fl, caps, sorted, index);
    ResolveFromInvariants(fl, caps, sorted, index);
    RoutedInRange(fl, r.entries);
    if index < |sorted| {
      var o := ResolveReservation(fl, caps, sorted, index);
      var rest := ResolveFrom(fl, o.caps, sorted, index + 1);
      ResolveChoice(fl, caps, sorted, index);
      ResolveFromRoundTrip(fl, o.caps, sorted, index + 1);
      assert r.entries[1..] == rest.entries;
      if o.chosen.Some? {
        var p, n := o.chosen.value, sorted[index].count;
        calc {
          Replay(r.caps, r.entries);
          Replay(Recover(rest.caps, p, n), rest.entries);
          { ReplayRecover(rest.caps, rest.entries, p, n); }
          Recover(Replay(rest.caps, rest.entries), p, n);
          Recover(Apply(caps, p, n), p, n);
          { RecoverApply(caps, p, n); }
          caps;
        }
      }
    }
  }

  /** Replaying the commits of a whole run backwards restores the initial
      capacities. */
  lemma RoundTrip(fl: seq<Flight>, caps: seq<int>, rs: seq<Reservation>)
    requires |caps| == |fl|
    ensures EntriesInRange(|caps|, ResolveAll(fl, caps, rs).entries)
    ensures Replay(ResolveAll(fl, caps, rs).caps, ResolveAll(fl, caps, rs).entries) == caps
  {
    ResolveFromRoundTrip(fl, caps, SortByCount(rs), 0);
  }

  // The result object: reservation id to flight ids, or null.

  /** What one entry contributes to the result: its flight ids, or nothing
      when it is unresolved. */
  function Resolved(fl: seq<Flight>, e: Entry): (r: Option<seq<string>>)
    requires e.itinerary.Some? ==> InRange(|fl|, e.itinerary.value)
    ensures r.None? <==> e.itinerary.None?
    ensures r.Some? ==> |r.value| == |e.itinerary.value| &&
                        forall j :: 0 <= j < |r.value| ==> r.value[j] == fl[e.itinerary.value[j]].id
  {
    match e.itinerary
    case None => None
    case Some(p) => Some(Ids(fl, p))
  }

  /** The ids of some reservations. */
  function IdsOf(rs: seq<Reservation>): (r: set<string>)
    ensures forall id :: id in r <==> exists j :: 0 <= j < |rs| && rs[j].id == id
  {
    if rs == [] then {}
    else
      var rest := IdsOf(rs[1..]);
      assert forall j :: 1 <= j < |rs| ==> rs[1..][j - 1] == rs[j];
      {rs[0].id} + rest
  }

  /** `result[id] = ...` in processing order: one key per reservation id,
      a later entry of the same id overwriting an earlier one. */
  function ResultMap(fl: seq<Flight>, entries: seq<Entry>): (m: map<string, Option<seq<string>>>)
    requires EntriesInRange(|fl|, entries)
    ensures m.Keys == IdsOf(Requests(entries))
  {
    if entries == [] then map[]
    else
      assert Requests(entries) == [entries[0].reservation] + Requests(entries[1..]);
      map[entries[0].reservation.id := Resolved(fl, entries[0])] + ResultMap(fl, entries[1..])
  }

  /** The value under an id is the outcome of the last entry with that id. */
  lemma {:induction false} ResultMapLastWins(fl: seq<Flight>, entries: seq<Entry>, k: nat)
    requires EntriesInRange(|fl|, entries)
    requires k < |entries| && LastOfId(entries, k)
    ensures ResultMap(fl, entries)[entries[k].reservation.id] == Resolved(fl, entries[k])
  {
    if k == 0 {
      NoLaterId(entries);
    } else {
      LastOfIdTail(entries, k);
      ResultMapLastWins(fl, entries[1..], k - 1);
    }
  }

  /** The last entry of an id is also the last of that id in the tail. */
  lemma LastOfIdTail(entries: seq<Entry>, k: nat)
    requires 0 < k < |entries| && LastOfId(entries, k)
    ensures entries[1..][k - 1] == entries[k] && LastOfId(entries[1..], k - 1)
  {
    assert entries[1..][k - 1] == entries[k];
    forall k' | k - 1 < k' < |entries| - 1 ensures entries[1..][k'].reservation.id != entries[k].reservation.id {
      assert entries[1..][k'] == entries[k' + 1];
    }
  }

  /** When no later entry shares the first entry's id, the rest of the
      result has no key for it. */
  lemma NoLaterId(entries: seq<Entry>)
    requires 0 < |entries| && LastOfId(entries, 0)
    ensures entries[0].reservation.id !in IdsOf(Requests(entries[1..]))
  {
    var id := entries[0].reservation.id;
    forall j | 0 <= j < |entries| - 1 ensures Requests(entries[1..])[j].id != id {
      assert entries[1..][j] == entries[j + 1];
    }
  }

  /** No entry after position `k` has the id of entry `k`. */
  predicate LastOfId(entries: seq<Entry>, k: nat)
    requires k < |entries|
  {
    forall k' :: k < k' < |entries| ==> entries[k'].reservation.id != entries[k].reservation.id
  }

  /** Every reservation id, and no other, is a key of the result object. */
  lemma EveryIdAnswered(fl: seq<Flight>, caps: seq<int>, rs: seq<Reservation>)
    requires |caps| == |fl|
    ensures EntriesInRange(|fl|, ResolveAll(fl, caps, rs).entries)
    ensures ResultMap(fl, ResolveAll(fl, caps, rs).entries).Keys == IdsOf(rs)
  {
    RunInvariants(fl, caps, rs);
    RoutedInRange(fl, ResolveAll(fl, caps, rs).entries);
    var reqs := Requests(ResolveAll(fl, caps, rs).entries);
    assert multiset(reqs) == multiset(rs);
    forall id ensures id in IdsOf(reqs) <==> id in IdsOf(rs) {
      if id in IdsOf(rs) {
        var j :| 0 <= j < |rs| && rs[j].id == id;
        assert rs[j] in multiset(reqs);
      }
      if id in IdsOf(reqs) {
        var j :| 0 <= j < |reqs| && reqs[j].id == id;
        assert reqs[j] in multiset(rs);
      }
    }
  }
}
