/**
 * The ranking of a batch: `valid_results.sort(key=score, reverse=True)`.
 * Python's sort is stable also when reversed, so pairs with equal scores keep
 * their discovery order. A stable sort by one key has exactly one possible
 * result (SortIsUnique), so an insertion sort describes it exactly.
 */
module Ranking {
  import opened Scoring

  /** Non-increasing by momentum score. */
  predicate SortedByScore(xs: seq<PairResult>) {
    forall i, j | 0 <= i < j < |xs| :: xs[i].momentumScore >= xs[j].momentumScore
  }

  /** The results whose score is exactly `v`, in their order in `xs`. */
  function WithScore(xs: seq<PairResult>, v: real): seq<PairResult> {
    if xs == [] then []
    else (if xs[0].momentumScore == v then [xs[0]] else []) + WithScore(xs[1..], v)
  }

  /** A head that scores at least as high as everything after it extends a sorted list. */
  lemma PrependSorted(h: PairResult, t: seq<PairResult>)
    requires SortedByScore(t)
    requires forall y | y in t :: h.momentumScore >= y.momentumScore
    ensures SortedByScore([h] + t)
  {
    var r := [h] + t;
    forall i, j | 0 <= i < j < |r| ensures r[i].momentumScore >= r[j].momentumScore {
      assert r[j] == t[j - 1];
      if i > 0 {
        assert r[i] == t[i - 1];
      }
    }
  }

  /** A non-empty list's first element heads its own tie group. */
  lemma HeadLeadsTieGroup(xs: seq<PairResult>)
    requires xs != []
    ensures WithScore(xs, xs[0].momentumScore) != []
    ensures WithScore(xs, xs[0].momentumScore)[0] == xs[0]
  {
  }

  /** Every member of a tie group is a member of the list. */
  lemma {:induction false} TieGroupMembers(xs: seq<PairResult>, v: real, y: PairResult)
    ensures y in WithScore(xs, v) <==> y in xs && y.momentumScore == v
  {
    if xs != [] {
      TieGroupMembers(xs[1..], v, y);
      assert xs == [xs[0]] + xs[1..];
    }
  }

  /** Puts `x` in front of the first element that does not score higher. */
  function Insert(x: PairResult, s: seq<PairResult>): (r: seq<PairResult>)
    requires SortedByScore(s)
    ensures forall y :: y in r <==> y in s || y == x
    ensures SortedByScore(r)
    ensures multiset(r) == multiset(s) + multiset{x}
  {
    if s == [] || x.momentumScore >= s[0].momentumScore then
      PrependSorted(x, s);
      [x] + s
    else
      var rest := Insert(x, s[1..]);
      assert forall y | y in s[1..] :: s[0].momentumScore >= y.momentumScore;
      PrependSorted(s[0], rest);
      assert s == [s[0]] + s[1..];
      [s[0]] + rest
  }

  /** The batch sorted by descending score, equal scores in their original order. */
  function SortByScore(xs: seq<PairResult>): (r: seq<PairResult>)
    ensures SortedByScore(r)
    ensures multiset(r) == multiset(xs)
  {
    if xs == [] then []
    else
      assert xs == [xs[0]] + xs[1..];
      Insert(xs[0], SortByScore(xs[1..]))
  }

  /** Sorting keeps the length and the members of the batch. */
  lemma SortKeepsMembers(xs: seq<PairResult>)
    ensures |SortByScore(xs)| == |xs|
    ensures forall x :: x in SortByScore(xs) <==> x in xs
  {
    var r := SortByScore(xs);
    assert |r| == |multiset(r)| == |multiset(xs)| == |xs|;
    forall x ensures x in r <==> x in xs {
      assert x in r <==> x in multiset(r);
      assert x in xs <==> x in multiset(xs);
    }
  }

  /** Inserting `x` adds it in front of the results that tie with it. */
  lemma {:induction false} InsertBeforeTies(x: PairResult, s: seq<PairResult>, v: real)
    requires SortedByScore(s)
    ensures WithScore(Insert(x, s), v) == (if x.momentumScore == v then [x] else []) + WithScore(s, v)
  {
    var tie := if x.momentumScore == v then [x] else [];
    if s == [] || x.momentumScore >= s[0].momentumScore {
      assert Insert(x, s) == [x] + s;
      assert ([x] + s)[1..] == s;
    } else {
      var rest := Insert(x, s[1..]);
      assert Insert(x, s) == [s[0]] + rest;
      InsertBeforeTies(x, s[1..], v);
      assert ([s[0]] + rest)[1..] == rest;
      var head := if s[0].momentumScore == v then [s[0]] else [];
      assert WithScore(Insert(x, s), v) == head + (tie + WithScore(s[1..], v));
      assert WithScore(s, v) == head + WithScore(s[1..], v);
      if x.momentumScore == v {
        assert head == [];
      } else {
        assert tie == [];
      }
    }
  }

  /** Stability: for every score, the results with that score appear in the same order as before. */
  lemma {:induction false} SortIsStable(xs: seq<PairResult>, v: real)
    ensures WithScore(SortByScore(xs), v) == WithScore(xs, v)
  {
    if xs != [] {
      SortIsStable(xs[1..], v);
      InsertBeforeTies(xs[0], SortByScore(xs[1..]), v);
    }
  }

  /** The first element of a sorted list scores at least as high as any member. */
  lemma HeadIsTop(xs: seq<PairResult>, y: PairResult)
    requires SortedByScore(xs) && y in xs
    ensures xs[0].momentumScore >= y.momentumScore
  {
    var k :| 0 <= k < |xs| && xs[k] == y;
    if k > 0 {
      assert xs[0].momentumScore >= xs[k].momentumScore;
    }
  }

  /** Two non-empty sorted lists that agree on every tie group start with the same element. */
  lemma HeadsAgree(ys: seq<PairResult>, zs: seq<PairResult>)
    requires ys != [] && zs != []
    requires SortedByScore(ys) && SortedByScore(zs)
    requires forall v :: WithScore(ys, v) == WithScore(zs, v)
    ensures ys[0] == zs[0]
  {
    var y, z := ys[0], zs[0];
    HeadLeadsTieGroup(ys);
    HeadLeadsTieGroup(zs);
    TieGroupMembers(zs, y.momentumScore, y);
    TieGroupMembers(ys, z.momentumScore, z);
    HeadIsTop(zs, y);
    HeadIsTop(ys, z);
    assert WithScore(ys, y.momentumScore) == WithScore(zs, z.momentumScore);
  }

  /** Lists with the same head that agree on every tie group have tails that agree too. */
  lemma TailsAgree(ys: seq<PairResult>, zs: seq<PairResult>, v: real)
    requires ys != [] && zs != [] && ys[0] == zs[0]
    requires WithScore(ys, v) == WithScore(zs, v)
    ensures WithScore(ys[1..], v) == WithScore(zs[1..], v)
  {
    var h := if ys[0].momentumScore == v then [ys[0]] else [];
    assert WithScore(ys, v) == h + WithScore(ys[1..], v);
    assert WithScore(zs, v) == h + WithScore(zs[1..], v);
    assert WithScore(ys[1..], v) == WithScore(ys, v)[|h|..];
    assert WithScore(zs[1..], v) == WithScore(zs, v)[|h|..];
  }

  /**
   * A sorted list is determined by what it holds at each score: two lists
   * sorted by descending score that agree on every tie group are equal.
   */
  lemma {:induction false} SortedDeterminedByTies(ys: seq<PairResult>, zs: seq<PairResult>)
    requires SortedByScore(ys) && SortedByScore(zs)
    requires forall v :: WithScore(ys, v) == WithScore(zs, v)
    ensures ys == zs
    decreases |ys|
  {
    if ys == [] && zs == [] {
    } else if ys == [] || zs == [] {
      HeadLeadsTieGroup(if ys == [] then zs else ys);
      assert false;
    } else {
      HeadsAgree(ys, zs);
      forall v ensures WithScore(ys[1..], v) == WithScore(zs[1..], v) {
        TailsAgree(ys, zs, v);
      }
      SortedDeterminedByTies(ys[1..], zs[1..]);
      assert ys == [ys[0]] + ys[1..] && zs == [zs[0]] + zs[1..];
    }
  }

  /**
   * Any stable sort by descending score gives SortByScore's result: a list
   * that is sorted and keeps every tie group of `xs` in order is that result.
   */
  lemma SortIsUnique(xs: seq<PairResult>, ys: seq<PairResult>)
    requires SortedByScore(ys)
    requires forall v :: WithScore(ys, v) == WithScore(xs, v)
    ensures ys == SortByScore(xs)
  {
    forall v ensures WithScore(ys, v) == WithScore(SortByScore(xs), v) {
      SortIsStable(xs, v);
    }
    SortedDeterminedByTies(ys, SortByScore(xs));
  }

  /** Two results with equal scores keep their relative order after sorting. */
  lemma EqualScoresKeepOrder(xs: seq<PairResult>, i: nat, j: nat)
    requires i < j < |xs| && xs[i].momentumScore == xs[j].momentumScore
    ensures xs[i] in SortByScore(xs) && xs[j] in SortByScore(xs)
    ensures WithScore(SortByScore(xs), xs[i].momentumScore) == WithScore(xs, xs[i].momentumScore)
  {
    SortIsStable(xs, xs[i].momentumScore);
    assert xs[i] in multiset(xs) && xs[j] in multiset(xs);
    assert xs[i] in multiset(SortByScore(xs)) && xs[j] in multiset(SortByScore(xs));
  }
}
