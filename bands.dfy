/** Fixed-width, left-open and right-closed bands, the interval test behind the
    dashboard's face lookups. Band `k` of width `w` starts where the k-th step
    of `w` from 0 lands, and covers (Lower(k, w), Lower(k, w) + w]. */
module Bands {
  import opened Wrappers

  /** The lower bound of band `k`: `k` steps of `width` from 0. */
  function Lower(k: nat, width: real): (lower: real) {
    if k == 0 then 0.0 else Lower(k - 1, width) + width
  }

  /** The band test of the lookups: `lower < v <= lower + width`. */
  predicate InBand(k: nat, width: real, v: real) {
    Lower(k, width) < v <= Lower(k, width) + width
  }

  /** Bands are laid out in order: a band ends no later than any higher band starts. */
  lemma {:induction false} UpperBelowLater(i: nat, j: nat, width: real)
    requires width > 0.0 && i < j
    ensures Lower(i, width) + width <= Lower(j, width)
    decreases j
  {
    if i < j - 1 {
      UpperBelowLater(i, j - 1, width);
    }
  }

  /** Every band lies above 0. */
  lemma {:induction false} LowerNonNegative(k: nat, width: real)
    requires width > 0.0
    ensures Lower(k, width) >= 0.0
  {
    if k > 0 {
      LowerNonNegative(k - 1, width);
    }
  }

  /** No value lies in two bands of the same width. */
  lemma BandUnique(i: nat, j: nat, width: real, v: real)
    requires width > 0.0
    requires InBand(i, width, v) && InBand(j, width, v)
    ensures i == j
  {
    if i < j {
      UpperBelowLater(i, j, width);
    } else if j < i {
      UpperBelowLater(j, i, width);
    }
  }

  /** The band among the first `count` bands that holds `v`, if any. The bands
      cover (0, Lower(count, width)] without gaps: an input of 0 or below, or
      above the top band, lies in none of them. */
  function BandOf(v: real, width: real, count: nat): (k: Option<nat>)
    requires width > 0.0
    ensures k.Some? <==> 0.0 < v <= Lower(count, width)
    ensures k.Some? ==> k.value < count && InBand(k.value, width, v)
    decreases count
  {
    if count == 0 then None
    else
      var top := count - 1;
      LowerNonNegative(top, width);
      if InBand(top, width, v) then Some(top)
      else BandOf(v, width, top)
  }

  /** Whenever `v` lies in band `k`, the lookup finds exactly that band. */
  lemma BandOfExact(v: real, width: real, count: nat, k: nat)
    requires width > 0.0 && k < count && InBand(k, width, v)
    ensures BandOf(v, width, count) == Some(k)
  {
    LowerNonNegative(k, width);
    if k + 1 < count {
      UpperBelowLater(k, count, width);
    }
    var b := BandOf(v, width, count);
    BandUnique(b.value, k, width, v);
  }
}
