/** The motivation history: the persisted store holding the recent "social" and
    "ball" drive levels, one sample per fast tick that has motivation data. */
module Motivation {
  import opened Wrappers

  /** The plot length; also the length the history is trimmed against. */
  const MOTIVATION_LENGTH := 30

  /** One series after a tick: `x` appended, then the oldest sample popped when `trim`. */
  function Pushed(series: seq<real>, x: real, trim: bool): (r: seq<real>) {
    if trim then (series + [x])[1..] else series + [x]
  }

  /** The trim test, on the "social" series after its append: `len >= MOTIVATION_LENGTH`. */
  predicate TrimAfter(socialLen: nat) {
    socialLen >= MOTIVATION_LENGTH
  }

  /** The last `n` samples of `s` (all of `s` when it is shorter). */
  function LastN(s: seq<real>, n: nat): (r: seq<real>)
    ensures |r| == if |s| < n then |s| else n
    ensures r == s[|s| - |r|..]
  {
    if |s| <= n then s else s[|s| - n..]
  }

  /** The "social" series after one tick with data: it trims on its own length. */
  function Slide(s: seq<real>, x: real): (r: seq<real>) {
    Pushed(s, x, TrimAfter(|s| + 1))
  }

  /** One tick on a history shorter than the plot length: the new sample is
      last, the oldest sample goes exactly when the history had reached 29, and
      the result holds at most 29 samples, never the full 30. */
  lemma SlideStep(s: seq<real>, x: real)
    requires |s| < MOTIVATION_LENGTH
    ensures var r := Slide(s, x);
      |r| <= MOTIVATION_LENGTH - 1 && |r| > 0 && r[|r| - 1] == x &&
      (r == if |s| == MOTIVATION_LENGTH - 1 then s[1..] + [x] else s + [x]) &&
      r == LastN(s + [x], MOTIVATION_LENGTH - 1)
  {
    var r := Slide(s, x);
    if |s| == MOTIVATION_LENGTH - 1 {
      assert r == (s + [x])[1..];
      assert (s + [x])[1..] == s[1..] + [x];
    }
  }

  /** The history after a run of ticks with data, the samples `xs` in order. */
  function SlideAll(s: seq<real>, xs: seq<real>): (r: seq<real>)
    decreases |xs|
  {
    if xs == [] then s else SlideAll(Slide(s, xs[0]), xs[1..])
  }

  /** Dropping the oldest samples before or after appending more comes to the same. */
  lemma LastNAppend(t: seq<real>, u: seq<real>, n: nat)
    ensures LastN(LastN(t, n) + u, n) == LastN(t + u, n)
  {
    var a := LastN(LastN(t, n) + u, n);
    var b := LastN(t + u, n);
    assert |a| == |b|;
    forall k | 0 <= k < |a| ensures a[k] == b[k] {
      var d := |t| - |LastN(t, n)|;
      assert (LastN(t, n) + u)[|LastN(t, n) + u| - |a| + k] == (t + u)[|t + u| - |b| + k] by {
        var p := |LastN(t, n) + u| - |a| + k;
        if p < |LastN(t, n)| {
          assert (t + u)[p + d] == t[p + d];
        }
      }
    }
  }

  /** One tick, then the rest of the run. */
  lemma SlideAllUnfold(s: seq<real>, xs: seq<real>)
    requires xs != []
    ensures SlideAll(s, xs) == SlideAll(Slide(s, xs[0]), xs[1..])
  {
  }

  /** Starting from a history shorter than the plot length, any run of ticks
      keeps exactly the last 29 samples seen (all of them while fewer), oldest
      first. */
  lemma {:induction false} SlideAllKeepsLast(s: seq<real>, xs: seq<real>)
    requires |s| < MOTIVATION_LENGTH
    ensures SlideAll(s, xs) == LastN(s + xs, MOTIVATION_LENGTH - 1)
    decreases |xs|
  {
    if xs == [] {
      assert s + xs == s;
    } else {
      var x, rest := xs[0], xs[1..];
      var n := MOTIVATION_LENGTH - 1;
      SlideStep(s, x);
      var s' := LastN(s + [x], n);
      calc {
        SlideAll(s, xs);
        { SlideAllUnfold(s, xs); }
        SlideAll(s', rest);
        { SlideAllKeepsLast(s', rest); }
        LastN(s' + rest, n);
        { LastNAppend(s + [x], rest, n); }
        LastN(s + [x] + rest, n);
        { assert s + [x] + rest == s + xs; }
        LastN(s + xs, n);
      }
    }
  }

  /** The persisted store, a dictionary with one list per drive, which each
      tick with data extends in place. */
  class MotivationMemory {
    var social: seq<real>
    var ball: seq<real>

    /** The two series advance in lockstep and stay below the plot length. */
    ghost predicate Valid()
      reads this
    {
      |social| == |ball| && |social| < MOTIVATION_LENGTH
    }

    /** The store as the page first creates it: both lists empty. */
    constructor ()
      ensures social == [] && ball == [] && Valid()
    {
      social := [];
      ball := [];
    }

    /** One fast tick's update. With no sample the store is left as it was.
        With a sample, each value is appended to its series and, when "social"
        has then reached the plot length, the first element of BOTH series is
        popped. */
    method Update(sample: Option<(real, real)>)
      modifies this
      ensures sample.None? ==> social == old(social) && ball == old(ball)
      ensures sample.Some? ==>
        social == Pushed(old(social), sample.value.0, TrimAfter(|old(social)| + 1)) &&
        ball == Pushed(old(ball), sample.value.1, TrimAfter(|old(social)| + 1))
      ensures sample.Some? ==> social == Slide(old(social), sample.value.0)
      ensures sample.Some? && old(Valid()) ==> ball == Slide(old(ball), sample.value.1)
      ensures sample.Some? && |old(social)| == |old(ball)| ==>
        |social| == |ball| && social[|social| - 1] == sample.value.0 && ball[|ball| - 1] == sample.value.1
      ensures old(Valid()) ==> Valid()
    {
      if sample.Some? {
        social := social + [sample.value.0];
        ball := ball + [sample.value.1];
        if |social| >= MOTIVATION_LENGTH {
          social := social[1..];
          ball := ball[1..];
        }
      }
    }
  }
}
