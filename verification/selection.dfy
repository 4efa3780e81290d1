/** Itinerary selection: getMinItinerary and the one-ply lookahead of
    getOptimalItinerary in resolver.js. */
module Selection {
  import opened Wrappers
  import opened Flights
  import opened ItinerarySearch

  predicate AllInRange(n: nat, its: seq<Path>)
  {
    forall i :: 0 <= i < |its| ==> InRange(n, its[i])
  }

  /** Every itinerary found names flights only. */
  lemma SearchInRange(fl: seq<Flight>, caps: seq<int>, res: Reservation)
    requires |caps| == |fl|
    ensures AllInRange(|caps|, Search(fl, caps, res))
  {
    var its := Search(fl, caps, res);
    forall i | 0 <= i < |its| ensures InRange(|caps|, its[i]) {
      assert its[i] in its;
    }
  }

  /** `Math.min` followed by `indexOf`: the first position of the least
      value. */
  function ArgMin(s: seq<int>): (k: nat)
    requires |s| > 0
    ensures k < |s|
    ensures forall j :: 0 <= j < |s| ==> s[k] <= s[j]
    ensures forall j :: 0 <= j < k ==> s[j] > s[k]
  {
    if |s| == 1 then 0
    else
      var k := ArgMin(s[..|s| - 1]);
      if s[|s| - 1] < s[k] then |s| - 1 else k
  }

  /** The summed capacity of every candidate. */
  function Totals(caps: seq<int>, its: seq<Path>): (r: seq<int>)
    requires AllInRange(|caps|, its)
    ensures |r| == |its|
    ensures forall i :: 0 <= i < |its| ==> r[i] == TotalCapacity(caps, its[i])
  {
    if its == [] then [] else [TotalCapacity(caps, its[0])] + Totals(caps, its[1..])
  }

  /** Position `k` holds the first candidate of least summed capacity. */
  predicate FirstTightest(caps: seq<int>, its: seq<Path>, k: nat)
    requires AllInRange(|caps|, its)
  {
    && k < |its|
    && (forall j :: 0 <= j < |its| ==> TotalCapacity(caps, its[k]) <= TotalCapacity(caps, its[j]))
    && (forall j :: 0 <= j < k ==> TotalCapacity(caps, its[j]) > TotalCapacity(caps, its[k]))
  }

  /** getMinItinerary: the candidate with the least summed capacity, the
      first one on a tie; nothing (JavaScript's `undefined`) for an empty
      list. */
  function MinItinerary(caps: seq<int>, its: seq<Path>): (r: Option<Path>)
    requires AllInRange(|caps|, its)
    ensures r.None? <==> |its| == 0
    ensures r.Some? ==> exists k :: 0 <= k < |its| && its[k] == r.value && FirstTightest(caps, its, k)
  {
    if |its| == 0 then None
    else
      var k := ArgMin(Totals(caps, its));
      assert FirstTightest(caps, its, k);
      Some(its[k])
  }

  /** The seats of the reservations in `later` that find no itinerary under
      `caps`. */
  function Unresolved(fl: seq<Flight>, caps: seq<int>, later: seq<Reservation>): (r: int)
    requires |caps| == |fl|
    ensures (forall i :: 0 <= i < |later| ==> later[i].count >= 0) ==> 0 <= r <= Seats(later)
  {
    if later == [] then 0
    else
      assert forall i :: 1 <= i < |later| ==> later[1..][i - 1] == later[i];
      (if |Search(fl, caps, later[0])| == 0 then later[0].count else 0)
      + Unresolved(fl, caps, later[1..])
  }

  /** The seats the reservations ask for. */
  function Seats(rs: seq<Reservation>): int
  {
    if rs == [] then 0 else rs[0].count + Seats(rs[1..])
  }

  /** With positive counts, no seat is left unresolved exactly when every
      later reservation still finds an itinerary. */
  lemma {:induction false} UnresolvedZero(fl: seq<Flight>, caps: seq<int>, later: seq<Reservation>)
    requires |caps| == |fl|
    requires forall i :: 0 <= i < |later| ==> later[i].count > 0
    ensures Unresolved(fl, caps, later) >= 0
    ensures Unresolved(fl, caps, later) == 0 <==> forall i :: 0 <= i < |later| ==> |Search(fl, caps, later[i])| > 0
  {
    if later != [] {
      UnresolvedZero(fl, caps, later[1..]);
      forall i | 1 <= i < |later| ensures later[1..][i - 1] == later[i] { }
    }
  }

  /** The downstream score of committing `p` for `rs[index]`: the seats of
      the later reservations it would leave without an itinerary. */
  function Score(fl: seq<Flight>, caps: seq<int>, rs: seq<Reservation>, index: nat, p: Path): (r: int)
    requires |caps| == |fl| && index < |rs| && InRange(|caps|, p)
    ensures index == |rs| - 1 ==> r == 0
  {
    Unresolved(fl, Apply(caps, p, rs[index].count), rs[index + 1..])
  }

  /** The scoring loop of getOptimalItinerary as the code runs it: apply the
      candidate, score the later reservations, recover the candidate, and go
      on with the recovered capacities. Returns the scores and the
      capacities left at the end. */
  function Speculate(fl: seq<Flight>, caps: seq<int>, rs: seq<Reservation>, index: nat, its: seq<Path>): (r: (seq<int>, seq<int>))
    requires |caps| == |fl| && index < |rs| && AllInRange(|caps|, its)
    ensures r.1 == caps
    ensures ScoredAs(fl, caps, rs, index, its, r.0)
    decreases its
  {
    if its == [] then ([], caps)
    else
      var n := rs[index].count;
      var applied := Apply(caps, its[0], n);
      var score := Unresolved(fl, applied, rs[index + 1..]);
      var restored := Recover(applied, its[0], n);
      RecoverApply(caps, its[0], n);
      var rest := Speculate(fl, restored, rs, index, its[1..]);
      assert ([score] + rest.0)[1..] == rest.0;
      ([score] + rest.0, rest.1)
  }

  /** `scores` lists the score of each candidate of `its`, in order. */
  predicate ScoredAs(fl: seq<Flight>, caps: seq<int>, rs: seq<Reservation>, index: nat, its: seq<Path>, scores: seq<int>)
    requires |caps| == |fl| && index < |rs| && AllInRange(|caps|, its)
    decreases its
  {
    && |scores| == |its|
    && (its != [] ==>
          && scores[0] == Score(fl, caps, rs, index, its[0])
          && ScoredAs(fl, caps, rs, index, its[1..], scores[1..]))
  }

  lemma {:induction false} ScoredAt(fl: seq<Flight>, caps: seq<int>, rs: seq<Reservation>, index: nat, its: seq<Path>,
                                    scores: seq<int>, i: nat)
    requires |caps| == |fl| && index < |rs| && AllInRange(|caps|, its)
    requires ScoredAs(fl, caps, rs, index, its, scores) && i < |its|
    ensures scores[i] == Score(fl, caps, rs, index, its[i])
    decreases i
  {
    if i > 0 {
      ScoredAt(fl, caps, rs, index, its[1..], scores[1..], i - 1);
      assert its[1..][i - 1] == its[i] && scores[1..][i - 1] == scores[i];
    }
  }

  /** The scoring loop gives every candidate the score it has against the
      untouched capacities, and ends with the capacities restored. */
  lemma SpeculateScores(fl: seq<Flight>, caps: seq<int>, rs: seq<Reservation>, index: nat, its: seq<Path>)
    requires |caps| == |fl| && index < |rs| && AllInRange(|caps|, its)
    ensures var r := Speculate(fl, caps, rs, index, its);
            && r.1 == caps
            && |r.0| == |its|
            && forall i :: 0 <= i < |its| ==> r.0[i] == Score(fl, caps, rs, index, its[i])
  {
    var r := Speculate(fl, caps, rs, index, its);
    forall i | 0 <= i < |its| ensures r.0[i] == Score(fl, caps, rs, index, its[i]) {
      ScoredAt(fl, caps, rs, index, its, r.0, i);
    }
  }

  /** The positions, from `k` on, where `s` holds `v`, in order. */
  function Positions(s: seq<int>, v: int, k: nat): (r: seq<nat>)
    ensures forall j :: 0 <= j < |r| ==> k <= r[j] < |s| && s[r[j]] == v
    ensures forall i :: k <= i < |s| && s[i] == v ==> i in r
    ensures forall i, j :: 0 <= i < j < |r| ==> r[i] < r[j]
    decreases |s| - k
  {
    if k >= |s| then []
    else (if s[k] == v then [k] else []) + Positions(s, v, k + 1)
  }

  /** The candidates at the positions `idx`, in that order. */
  function Pick(its: seq<Path>, idx: seq<nat>): (r: seq<Path>)
    requires forall j :: 0 <= j < |idx| ==> idx[j] < |its|
    ensures |r| == |idx|
    ensures forall j :: 0 <= j < |idx| ==> r[j] == its[idx[j]]
  {
    if idx == [] then [] else [its[idx[0]]] + Pick(its, idx[1..])
  }

  /** Position `i` holds the choice of the lookahead: least score, then
      least summed capacity among the least-scored, then earliest. */
  predicate BestAt(fl: seq<Flight>, caps: seq<int>, rs: seq<Reservation>, index: nat, its: seq<Path>, i: nat)
    requires |caps| == |fl| && index < |rs| && AllInRange(|caps|, its)
  {
    && i < |its|
    && (forall j :: 0 <= j < |its| ==> Score(fl, caps, rs, index, its[i]) <= Score(fl, caps, rs, index, its[j]))
    && (forall j :: 0 <= j < |its| && Score(fl, caps, rs, index, its[j]) == Score(fl, caps, rs, index, its[i]) ==>
          TotalCapacity(caps, its[i]) <= TotalCapacity(caps, its[j]))
    && (forall j :: 0 <= j < i ==>
          || Score(fl, caps, rs, index, its[j]) > Score(fl, caps, rs, index, its[i])
          || TotalCapacity(caps, its[j]) > TotalCapacity(caps, its[i]))
  }

  /** `p` is the lookahead's choice among the candidates `its`. */
  predicate Lookahead(fl: seq<Flight>, caps: seq<int>, rs: seq<Reservation>, index: nat, its: seq<Path>, p: Path)
    requires |caps| == |fl| && index < |rs| && AllInRange(|caps|, its)
  {
    exists i :: 0 <= i < |its| && its[i] == p && BestAt(fl, caps, rs, index, its, i)
  }

  /** The tightest of the least-scored candidates is the lookahead's
      choice over all candidates. */
  lemma ChoiceAmongCandidates(fl: seq<Flight>, caps: seq<int>, rs: seq<Reservation>, index: nat,
                              its: seq<Path>, scores: seq<int>, m: int, idx: seq<nat>, k: nat)
    requires |caps| == |fl| && index < |rs| && AllInRange(|caps|, its)
    requires ScoredAs(fl, caps, rs, index, its, scores)
    requires forall i :: 0 <= i < |its| ==> m <= scores[i]
    requires idx == Positions(scores, m, 0)
    requires AllInRange(|caps|, Pick(its, idx))
    requires FirstTightest(caps, Pick(its, idx), k)
    ensures BestAt(fl, caps, rs, index, its, idx[k])
  {
    TightestOfLeast(caps, its, scores, m, idx, k);
    BestFromScores(fl, caps, rs, index, its, scores, idx[k]);
  }

  /** The same choice stated over the scores alone: the tightest of the
      candidates at the least score has the least score, the least summed
      capacity among its equals, and beats every earlier candidate in one
      of the two. */
  lemma TightestOfLeast(caps: seq<int>, its: seq<Path>, scores: seq<int>, m: int, idx: seq<nat>, k: nat)
    requires AllInRange(|caps|, its) && |scores| == |its|
    requires forall i :: 0 <= i < |its| ==> m <= scores[i]
    requires idx == Positions(scores, m, 0)
    requires AllInRange(|caps|, Pick(its, idx))
    requires FirstTightest(caps, Pick(its, idx), k)
    ensures k < |idx| && idx[k] < |its| && its[idx[k]] == Pick(its, idx)[k]
    ensures forall j :: 0 <= j < |its| ==> scores[idx[k]] <= scores[j]
    ensures forall j :: 0 <= j < |its| && scores[j] == scores[idx[k]] ==>
              TotalCapacity(caps, its[idx[k]]) <= TotalCapacity(caps, its[j])
    ensures forall j :: 0 <= j < idx[k] ==>
              scores[j] > scores[idx[k]] || TotalCapacity(caps, its[j]) > TotalCapacity(caps, its[idx[k]])
  {
    var cands := Pick(its, idx);
    var i := idx[k];
    assert cands[k] == its[i] && scores[i] == m;
    forall j | 0 <= j < |its| && scores[j] == scores[i]
      ensures TotalCapacity(caps, its[i]) <= TotalCapacity(caps, its[j])
    {
      var k' :| 0 <= k' < |idx| && idx[k'] == j;
      assert cands[k'] == its[j];
    }
    forall j | 0 <= j < i
      ensures scores[j] > scores[i] || TotalCapacity(caps, its[j]) > TotalCapacity(caps, its[i])
    {
      if scores[j] == m {
        var k' :| 0 <= k' < |idx| && idx[k'] == j;
        assert cands[k'] == its[j] && k' < k;
      }
    }
  }

  /** Position `i` is the lookahead's choice when its score is least, its
      summed capacity least among the equally scored, and every earlier
      position is worse in one of the two. */
  lemma BestFromScores(fl: seq<Flight>, caps: seq<int>, rs: seq<Reservation>, index: nat,
                       its: seq<Path>, scores: seq<int>, i: nat)
    requires |caps| == |fl| && index < |rs| && AllInRange(|caps|, its)
    requires ScoredAs(fl, caps, rs, index, its, scores) && i < |its|
    requires forall j :: 0 <= j < |its| ==> scores[i] <= scores[j]
    requires forall j :: 0 <= j < |its| && scores[j] == scores[i] ==> TotalCapacity(caps, its[i]) <= TotalCapacity(caps, its[j])
    requires forall j :: 0 <= j < i ==> scores[j] > scores[i] || TotalCapacity(caps, its[j]) > TotalCapacity(caps, its[i])
    ensures BestAt(fl, caps, rs, index, its, i)
  {
    ScoredAt(fl, caps, rs, index, its, scores, i);
    forall j | 0 <= j < |its| ensures scores[j] == Score(fl, caps, rs, index, its[j]) {
      ScoredAt(fl, caps, rs, index, its, scores, j);
    }
  }

  /** getOptimalItinerary: score every candidate against the same baseline
      capacities, keep the least-scored ones, and pick among them with
      getMinItinerary at the capacities the scoring loop restored. */
  function OptimalItinerary(fl: seq<Flight>, caps: seq<int>, rs: seq<Reservation>, index: nat, its: seq<Path>): (r: Option<Path>)
    requires |caps| == |fl| && index < |rs| && AllInRange(|caps|, its)
    ensures r.None? <==> |its| == 0
    ensures r.Some? ==> r.value in its && Lookahead(fl, caps, rs, index, its, r.value)
  {
    if |its| == 0 then None
    else
      var sp := Speculate(fl, caps, rs, index, its);
      var cands := LeastScored(|caps|, its, sp.0);
      var r := MinItinerary(sp.1, cands);
      MinIsLookahead(fl, caps, rs, index, its, sp.0, r);
      r
  }

  /** The candidates that share the least score, in their order. */
  function LeastScored(n: nat, its: seq<Path>, scores: seq<int>): (r: seq<Path>)
    requires AllInRange(n, its) && |scores| == |its| && |its| > 0
    ensures AllInRange(n, r) && |r| > 0
    ensures forall k :: 0 <= k < |r| ==> exists i :: 0 <= i < |its| && its[i] == r[k] && LeastAt(scores, i)
  {
    var idx := Positions(scores, scores[ArgMin(scores)], 0);
    Pick(its, idx)
  }

  /** Position `i` holds a least score. */
  predicate LeastAt(scores: seq<int>, i: int)
  {
    0 <= i < |scores| && forall j :: 0 <= j < |scores| ==> scores[i] <= scores[j]
  }

  /** getMinItinerary over the least-scored candidates makes the
      lookahead's choice. */
  lemma MinIsLookahead(fl: seq<Flight>, caps: seq<int>, rs: seq<Reservation>, index: nat, its: seq<Path>,
                       scores: seq<int>, r: Option<Path>)
    requires |caps| == |fl| && index < |rs| && AllInRange(|caps|, its) && |its| > 0
    requires ScoredAs(fl, caps, rs, index, its, scores)
    requires r == MinItinerary(caps, LeastScored(|caps|, its, scores))
    ensures r.Some? && r.value in its && Lookahead(fl, caps, rs, index, its, r.value)
  {
    var a := ArgMin(scores);
    var idx := Positions(scores, scores[a], 0);
    var cands := Pick(its, idx);
    assert cands == LeastScored(|caps|, its, scores);
    assert a in idx;
    var k :| 0 <= k < |cands| && cands[k] == r.value && FirstTightest(caps, cands, k);
    ChoiceAmongCandidates(fl, caps, rs, index, its, scores, scores[a], idx, k);
    assert its[idx[k]] == r.value;
  }
}
