/** The slow cycle: the circadian panel shows one pre-rendered clock face per
    hour, named after the hour in decimal. */
module SlowCycle {
  import opened Wrappers
  import opened Assets

  const CLOCK_PREFIX := ASSET_PATH + "clock_"
  const CLOCK_SUFFIX := ".png"

  predicate IsDigit(c: char) { '0' <= c <= '9' }

  predicate AllDigits(s: string) { forall k :: 0 <= k < |s| ==> IsDigit(s[k]) }

  /** Decimal digits of `n`, most significant first, without leading zeros. */
  function NatToString(n: nat): (s: string)
    ensures |s| > 0 && AllDigits(s)
    ensures |s| > 1 ==> s[0] != '0'
    decreases n
  {
    var last := [(('0' as int) + n % 10) as char];
    if n < 10 then last else NatToString(n / 10) + last
  }

  /** Python's `str` of an integer. */
  function IntToString(n: int): (s: string)
    ensures |s| > 0
    ensures n < 0 <==> s[0] == '-'
  {
    if n < 0 then "-" + NatToString(-n) else NatToString(n)
  }

  /** The value of a run of decimal digits. */
  function DigitsValue(s: string): (n: nat)
    requires AllDigits(s)
    decreases |s|
  {
    if s == [] then 0
    else DigitsValue(s[..|s| - 1]) * 10 + ((s[|s| - 1] as int) - ('0' as int))
  }

  /** Reading the digits back gives the number. */
  lemma {:induction false} NatToStringRoundTrip(n: nat)
    ensures DigitsValue(NatToString(n)) == n
    decreases n
  {
    var s := NatToString(n);
    if n >= 10 {
      NatToStringRoundTrip(n / 10);
      assert s[..|s| - 1] == NatToString(n / 10);
    }
  }

  /** Parse an optionally signed decimal integer. */
  function ParseInt(s: string): (n: Option<int>) {
    if |s| > 1 && s[0] == '-' && AllDigits(s[1..]) then Some(0 - DigitsValue(s[1..]) as int)
    else if |s| > 0 && AllDigits(s) then Some(DigitsValue(s))
    else None
  }

  /** `str` is inverted by parsing, so distinct hours have distinct names. */
  lemma IntToStringRoundTrip(n: int)
    ensures ParseInt(IntToString(n)) == Some(n)
  {
    if n < 0 {
      NatToStringRoundTrip(-n);
      assert IntToString(n)[1..] == NatToString(-n);
    } else {
      NatToStringRoundTrip(n);
    }
  }

  /** The clock asset for the hour read from the core; 0 when there is none. */
  function ClockSource(time: Option<int>): (src: string)
    ensures |src| > |CLOCK_PREFIX| + |CLOCK_SUFFIX|
    ensures src[..|CLOCK_PREFIX|] == CLOCK_PREFIX
    ensures src[|src| - |CLOCK_SUFFIX|..] == CLOCK_SUFFIX
  {
    CLOCK_PREFIX + IntToString(time.GetOr(0)) + CLOCK_SUFFIX
  }

  /** The hour a clock asset name shows, if it is one. */
  function ClockHour(src: string): (hour: Option<int>) {
    if |src| >= |CLOCK_PREFIX| + |CLOCK_SUFFIX| &&
       src[..|CLOCK_PREFIX|] == CLOCK_PREFIX && src[|src| - |CLOCK_SUFFIX|..] == CLOCK_SUFFIX
    then ParseInt(src[|CLOCK_PREFIX|..|src| - |CLOCK_SUFFIX|])
    else None
  }

  /** The asset name shows the hour it was chosen for (0 when none was read). */
  lemma ClockSourceRoundTrip(time: Option<int>)
    ensures ClockHour(ClockSource(time)) == Some(time.GetOr(0))
  {
    var digits := IntToString(time.GetOr(0));
    var src := ClockSource(time);
    assert src[|CLOCK_PREFIX|..|src| - |CLOCK_SUFFIX|] == digits;
    IntToStringRoundTrip(time.GetOr(0));
  }

  /** Two ticks show the same clock exactly when they read the same hour, an
      absent hour counting as 0. */
  lemma ClockSourceSameIffSameHour(t1: Option<int>, t2: Option<int>)
    ensures ClockSource(t1) == ClockSource(t2) <==> t1.GetOr(0) == t2.GetOr(0)
  {
    ClockSourceRoundTrip(t1);
    ClockSourceRoundTrip(t2);
  }

  /** Without a time reading the clock shows midnight. */
  lemma ClockSourceDefault()
    ensures ClockSource(None) == "assets/clock_0.png"
  {
  }
}
