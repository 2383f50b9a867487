/** What the listing pages share: the previous/next page buttons, the rule that shows them,
    and Array.prototype.filter, used for the client-side searches. */
module Listing {

  /** `Math.max(1, p - 1)` */
  function PrevPage(p: int): (r: int)
    ensures r >= 1
    ensures p > 1 ==> r == p - 1
    ensures p <= 1 ==> r == 1
  {
    if p - 1 > 1 then p - 1 else 1
  }

  /** `Math.min(totalPages, p + 1)` */
  function NextPage(p: int, totalPages: int): (r: int)
    ensures r <= totalPages
    ensures p < totalPages ==> r == p + 1
    ensures p >= totalPages ==> r == totalPages
  {
    if totalPages < p + 1 then totalPages else p + 1
  }

  /** The pager renders only when there is more than one page. */
  predicate ShowPagination(totalPages: int)
  {
    totalPages > 1
  }

  predicate InRange(page: int, totalPages: int)
  {
    1 <= page <= totalPages
  }

  /** A page inside `[1, totalPages]` stays inside after either button. */
  lemma PagingStaysInRange(page: int, totalPages: int)
    requires InRange(page, totalPages)
    ensures InRange(PrevPage(page), totalPages)
    ensures InRange(NextPage(page, totalPages), totalPages)
  {
  }

  /** For a page in range, the pager is hidden exactly when neither button could move. */
  lemma PagerHiddenExactlyWhenStuck(page: int, totalPages: int)
    requires InRange(page, totalPages)
    ensures !ShowPagination(totalPages) <==> PrevPage(page) == page && NextPage(page, totalPages) == page
  {
  }

  /** The previous button is disabled (`page === 1`) exactly when clicking it would change nothing. */
  lemma PrevDisabledExactlyWhenIdle(page: int)
    requires page >= 1
    ensures PrevPage(page) == page <==> page == 1
  {
  }

  /** The next button is disabled (`page === totalPages`) exactly when clicking it would change nothing. */
  lemma NextDisabledExactlyWhenIdle(page: int, totalPages: int)
    requires page <= totalPages
    ensures NextPage(page, totalPages) == page <==> page == totalPages
  {
  }

  /** Inside the range, the two buttons undo each other. */
  lemma PrevNextInverse(page: int, totalPages: int)
    ensures 1 <= page < totalPages ==> PrevPage(NextPage(page, totalPages)) == page
    ensures 1 < page <= totalPages ==> NextPage(PrevPage(page), totalPages) == page
  {
  }

  /** `xs.filter(keep)`. The contract gives membership only; the order and multiplicity of
      what is kept are fixed by FilterSingleton and FilterAppend below. */
  function Filter<T>(xs: seq<T>, keep: T -> bool): (r: seq<T>)
    ensures |r| <= |xs|
    ensures forall i :: 0 <= i < |r| ==> r[i] in xs && keep(r[i])
    ensures forall i :: 0 <= i < |xs| && keep(xs[i]) ==> xs[i] in r
  {
    if xs == [] then []
    else if keep(xs[0]) then [xs[0]] + Filter(xs[1..], keep)
    else Filter(xs[1..], keep)
  }

  /** A one-element list is kept exactly when its element passes. */
  lemma FilterSingleton<T>(x: T, keep: T -> bool)
    ensures Filter([x], keep) == if keep(x) then [x] else []
  {
    assert [x][1..] == [];
  }

  /** Filtering a concatenation filters each part and keeps their order; with the
      one-element case this fixes Filter completely. */
  lemma {:induction false} FilterAppend<T>(xs: seq<T>, ys: seq<T>, keep: T -> bool)
    ensures Filter(xs + ys, keep) == Filter(xs, keep) + Filter(ys, keep)
  {
    if xs == [] {
      assert xs + ys == ys;
    } else {
      var zs := xs + ys;
      assert zs[0] == xs[0];
      assert zs[1..] == xs[1..] + ys;
      FilterAppend(xs[1..], ys, keep);
      if keep(xs[0]) {
        calc {
          Filter(zs, keep);
          [xs[0]] + Filter(xs[1..] + ys, keep);
          [xs[0]] + (Filter(xs[1..], keep) + Filter(ys, keep));
          ([xs[0]] + Filter(xs[1..], keep)) + Filter(ys, keep);
        }
      }
    }
  }

  /** When every element passes, filtering changes nothing. */
  lemma {:induction false} FilterKeepsAll<T>(xs: seq<T>, keep: T -> bool)
    requires forall i :: 0 <= i < |xs| ==> keep(xs[i])
    ensures Filter(xs, keep) == xs
  {
    if xs != [] {
      FilterKeepsAll(xs[1..], keep);
    }
  }

  /** A predicate that is implied by another keeps at least as many elements. */
  lemma {:induction false} FilterMonotone<T>(xs: seq<T>, narrow: T -> bool, wide: T -> bool)
    requires forall x :: narrow(x) ==> wide(x)
    ensures |Filter(xs, narrow)| <= |Filter(xs, wide)|
  {
    if xs != [] {
      FilterMonotone(xs[1..], narrow, wide);
    }
  }

  /** Two predicates that agree everywhere keep the same elements. */
  lemma {:induction false} FilterCongruent<T>(xs: seq<T>, p: T -> bool, q: T -> bool)
    requires forall x :: p(x) == q(x)
    ensures Filter(xs, p) == Filter(xs, q)
  {
    if xs != [] {
      FilterCongruent(xs[1..], p, q);
    }
  }
}
