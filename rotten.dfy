/**
 * The filter of `findRottenDeals`: of the deals the CRM returned, keep, in
 * order, those whose rotten time lies strictly before now. Time is an integer
 * timestamp and "now" is a parameter.
 */
module RottenFilter {
  import opened Common
  import opened Deals

  /**
   * `moment().isAfter(moment(deal.rotten_time))`. A missing or unparseable
   * rotten time gives an invalid moment, and `isAfter` is false for it.
   */
  predicate IsRotten(d: Deal, now: int)
    reads d
  {
    d.rottenTime.Some? && now > d.rottenTime.value
  }

  /** `a` is `b` with some elements left out and the rest in their order. */
  predicate IsSubsequence<T(==)>(a: seq<T>, b: seq<T>)
    decreases |b|
  {
    if a == [] then true
    else if b == [] then false
    else if a[0] == b[0] then IsSubsequence(a[1..], b[1..])
    else IsSubsequence(a, b[1..])
  }

  /** `data.filter(deal => moment().isAfter(moment(deal.rotten_time)))`. */
  function FindRottenDeals(fetched: seq<Deal>, now: int): (rotten: seq<Deal>)
    reads fetched
    ensures IsSubsequence(rotten, fetched)
    ensures multiset(rotten) <= multiset(fetched)
    ensures forall d :: d in fetched ==>
              multiset(rotten)[d] == if IsRotten(d, now) then multiset(fetched)[d] else 0
  {
    if fetched == [] then []
    else
      var head, tail := fetched[0], fetched[1..];
      var rest := FindRottenDeals(tail, now);
      assert fetched == [head] + tail;
      assert multiset(fetched) == multiset{head} + multiset(tail);
      var rotten := if IsRotten(head, now) then [head] + rest else rest;
      assert multiset(rotten) == (if IsRotten(head, now) then multiset{head} else multiset{}) + multiset(rest);
      assert forall d :: d in fetched && d !in tail ==> d == head && multiset(rest)[d] == 0;
      rotten
  }

  /** A subsequence is never longer than the sequence it is taken from. */
  lemma {:induction false} SubsequenceLength<T>(a: seq<T>, b: seq<T>)
    requires IsSubsequence(a, b)
    ensures |a| <= |b|
    decreases |b|
  {
    if a != [] {
      if a[0] == b[0] {
        SubsequenceLength(a[1..], b[1..]);
      } else {
        SubsequenceLength(a, b[1..]);
      }
    }
  }

  /** The filtered list is at most as long as the fetched one. */
  lemma FindRottenDealsLength(fetched: seq<Deal>, now: int)
    ensures |FindRottenDeals(fetched, now)| <= |fetched|
  {
    SubsequenceLength(FindRottenDeals(fetched, now), fetched);
  }

  /** A deal is kept if and only if it was fetched and its rotten time is strictly before now. */
  lemma FindRottenDealsMembership(fetched: seq<Deal>, now: int, d: Deal)
    ensures d in FindRottenDeals(fetched, now) <==> d in fetched && IsRotten(d, now)
  {
    var rotten := FindRottenDeals(fetched, now);
    assert d in rotten <==> d in multiset(rotten);
    assert d in fetched <==> d in multiset(fetched);
  }

  /** The boundary is strict: a deal that rots exactly now is left out. */
  lemma RottingNowIsExcluded(fetched: seq<Deal>, now: int, d: Deal)
    requires d.rottenTime == Some(now)
    ensures d !in FindRottenDeals(fetched, now)
  {
    FindRottenDealsMembership(fetched, now, d);
  }

  /** A deal without a usable rotten time is never kept. */
  lemma WithoutRottenTimeIsExcluded(fetched: seq<Deal>, now: int, d: Deal)
    requires d.rottenTime == None
    ensures d !in FindRottenDeals(fetched, now)
  {
    FindRottenDealsMembership(fetched, now, d);
  }

  /** Filtering the filtered list again changes nothing. */
  lemma {:induction false} FindRottenDealsIdempotent(fetched: seq<Deal>, now: int)
    ensures FindRottenDeals(FindRottenDeals(fetched, now), now) == FindRottenDeals(fetched, now)
  {
    if fetched != [] {
      FindRottenDealsIdempotent(fetched[1..], now);
      var rest := FindRottenDeals(fetched[1..], now);
      if IsRotten(fetched[0], now) {
        assert ([fetched[0]] + rest)[1..] == rest;
      }
    }
  }

  /** The filter distributes over concatenation: filtering `a + b` is filtering `a`, then `b`. */
  lemma {:induction false} FindRottenDealsAppend(a: seq<Deal>, b: seq<Deal>, now: int)
    ensures FindRottenDeals(a + b, now) == FindRottenDeals(a, now) + FindRottenDeals(b, now)
  {
    if a == [] {
      assert a + b == b;
    } else {
      assert (a + b)[0] == a[0] && (a + b)[1..] == a[1..] + b;
      FindRottenDealsAppend(a[1..], b, now);
    }
  }

  /** A deal that is rotten at one time is still rotten later, so the kept list only grows with time. */
  lemma {:induction false} FindRottenDealsMonotone(fetched: seq<Deal>, earlier: int, later: int)
    requires earlier <= later
    ensures IsSubsequence(FindRottenDeals(fetched, earlier), FindRottenDeals(fetched, later))
  {
    if fetched != [] {
      FindRottenDealsMonotone(fetched[1..], earlier, later);
      var e := FindRottenDeals(fetched[1..], earlier);
      var l := FindRottenDeals(fetched[1..], later);
      if IsRotten(fetched[0], earlier) {
        assert ([fetched[0]] + e)[1..] == e && ([fetched[0]] + l)[1..] == l;
      } else if IsRotten(fetched[0], later) {
        SubsequenceSkip(e, fetched[0], l);
      }
    }
  }

  /** Putting one more element in front of the longer sequence keeps a subsequence one. */
  lemma {:induction false} SubsequenceSkip<T>(a: seq<T>, x: T, b: seq<T>)
    requires IsSubsequence(a, b)
    ensures IsSubsequence(a, [x] + b)
    decreases |b|, 1
  {
    assert ([x] + b)[1..] == b;
    if a != [] && a[0] == x {
      SubsequenceTail(a, b);
    }
  }

  /** Dropping the head of a subsequence keeps it a subsequence. */
  lemma {:induction false} SubsequenceTail<T>(a: seq<T>, b: seq<T>)
    requires a != [] && IsSubsequence(a, b)
    ensures IsSubsequence(a[1..], b)
    decreases |b|, 0
  {
    assert [b[0]] + b[1..] == b;
    if a[0] == b[0] {
      SubsequenceSkip(a[1..], b[0], b[1..]);
    } else {
      SubsequenceTail(a, b[1..]);
      SubsequenceSkip(a[1..], b[0], b[1..]);
    }
  }
}
