/** The cadence estimator `determine_update_frequency`
    (analyze_channel.py:83-114): a rule chain turns each publish time into an
    optional day count, and the mean of the first three counts picks one of
    four labels. */
module Cadence {
  import opened Text
  import opened Wrappers

  /** The match of `(\d+)\s+<unit>s?\s+ago` anchored at the start of `s`:
      the value of the digit group. Each piece is greedy and no piece can
      give a character to the next (digits, white space and the letters of
      the unit are disjoint), so the maximal munch is the only candidate. */
  function AgoAt(s: string, unit: string): Option<nat>
  {
    var n := DigitRun(s);
    AgoFrom(s, unit, n, n + SpaceRun(s[n..]))
  }

  /** The rest of that match once the digit group is `s[..n]` and the white
      space after it ends at `a`. */
  function AgoFrom(s: string, unit: string, n: nat, a: nat): Option<nat>
    requires n <= a <= |s| && AllDigits(s[..n])
  {
    if n == 0 || a == n || !StartsWith(s[a..], unit) then None
    else if AgoAfterUnit(s[a + |unit|..]) then Some(DigitsValue(s[..n]))
    else None
  }

  /** What `s?\s+ago` needs after the unit: an optional "s", at least one
      white-space character, then "ago". */
  predicate AgoAfterUnit(r: string)
  {
    var c := if r != [] && r[0] == 's' then 1 else 0;
    var d := c + SpaceRun(r[c..]);
    d > c && StartsWith(r[d..], "ago")
  }

  /** `re.search(r'(\d+)\s+<unit>s?\s+ago', s)`: the leftmost match. */
  function SearchAgo(s: string, unit: string): Option<nat>
    decreases |s|
  {
    if s == [] then None
    else match AgoAt(s, unit)
      case Some(v) => Some(v)
      case None => SearchAgo(s[1..], unit)
  }

  /** A text lacking one of the letters of the unit never matches. */
  lemma {:induction false} SearchNeedsUnit(s: string, unit: string, k: nat)
    requires k < |unit| && unit[k] !in s
    ensures SearchAgo(s, unit) == None
    decreases |s|
  {
    if s != [] {
      var n := DigitRun(s);
      var a := n + SpaceRun(s[n..]);
      if a + k < |s| {
        assert s[a..][k] == s[a + k];
      }
      assert AgoAt(s, unit) == None;
      assert forall x :: x in s[1..] ==> x in s;
      SearchNeedsUnit(s[1..], unit, k);
    }
  }

  /** The day count one publish time contributes, following the rule order
      of analyze_channel.py:87-98: "N day(s) ago" gives N; any "hour" or
      "minute" gives 0; any "1 week" gives 7; "N week(s) ago" gives 7N; any
      "1 month" gives 30; anything else gives no sample. */
  function DaySample(t: string): Option<nat>
  {
    match SearchAgo(t, "day")
    case Some(d) => Some(d)
    case None =>
      if Contains(t, "hour") || Contains(t, "minute") then Some(0)
      else if Contains(t, "1 week") then Some(7)
      else match SearchAgo(t, "week")
        case Some(w) => Some(w * 7)
        case None => if Contains(t, "1 month") then Some(30) else None
  }

  /** The samples of the publish times that parse, in order. */
  function Samples(times: seq<string>): (days: seq<nat>)
    ensures |days| <= |times|
    ensures forall k :: 0 <= k < |days| ==>
      exists i :: 0 <= i < |times| && DaySample(times[i]) == Some(days[k])
    ensures |days| == |times| <==> forall i :: 0 <= i < |times| ==> DaySample(times[i]).Some?
  {
    if times == [] then []
    else
      var init := Samples(times[..|times| - 1]);
      assert forall i :: 0 <= i < |times| - 1 ==> times[..|times| - 1][i] == times[i];
      match DaySample(times[|times| - 1])
      case Some(d) => init + [d]
      case None => init
  }

  /** The four labels, and "Unknown". */
  datatype Frequency = Unknown | Within3Days | Days4To7 | Days7Plus | Days14Plus {
    function Label(): string
    {
      match this
      case Unknown => "Unknown"
      case Within3Days => "3天/条"
      case Days4To7 => "4-7天/条"
      case Days7Plus => "7天+/条"
      case Days14Plus => "14天+/条"
    }
  }

  function SumNat(xs: seq<nat>): nat
  {
    if xs == [] then 0 else SumNat(xs[..|xs| - 1]) + xs[|xs| - 1]
  }

  /** `days[:3]`. */
  function Recent(days: seq<nat>): (r: seq<nat>)
    ensures |r| == if |days| < 3 then |days| else 3
    ensures r == days[..|r|]
  {
    if |days| < 3 then days else days[..3]
  }

  /** The bucket of the mean of the first three samples, with the mean
      compared exactly: `sum / n <= k` is `sum <= k * n`. Fewer than two
      samples give "Unknown". */
  function FrequencyOf(days: seq<nat>): Frequency
  {
    if |days| < 2 then Unknown
    else
      var recent := Recent(days);
      var total := SumNat(recent);
      var n := |recent|;
      if total <= 3 * n then Within3Days
      else if total <= 7 * n then Days4To7
      else if total <= 14 * n then Days7Plus
      else Days14Plus
  }

  /** The mean as a rational compared with a bound equals the integer
      comparison, for the two and three samples the estimator averages. */
  lemma {:induction false} MeanAtMost(total: nat, n: nat, k: nat)
    requires n == 2 || n == 3
    ensures total as real / n as real <= k as real <==> total <= k * n
  {
  }

  /** `determine_update_frequency`: collects the samples, then buckets the
      rational mean of the first three. */
  method DetermineUpdateFrequency(times: seq<string>) returns (frequency: Frequency)
    ensures frequency == FrequencyOf(Samples(times))
  {
    var days: seq<nat> := [];
    for i := 0 to |times|
      invariant days == Samples(times[..i])
    {
      var t := times[i];
      assert times[..i + 1][..i] == times[..i];
      var dayMatch := SearchAgo(t, "day");
      if dayMatch.Some? {
        days := days + [dayMatch.value];
      } else if Contains(t, "hour") || Contains(t, "minute") {
        days := days + [0];
      } else if Contains(t, "1 week") {
        days := days + [7];
      } else if SearchAgo(t, "week").Some? {
        var weeks := SearchAgo(t, "week").value;
        days := days + [weeks * 7];
      } else if Contains(t, "1 month") {
        days := days + [30];
      }
    }
    assert times[..|times|] == times;
    if |days| < 2 {
      return Unknown;
    }
    var recent := Recent(days);
    var avgInterval := SumNat(recent) as real / |recent| as real;
    MeanAtMost(SumNat(recent), |recent|, 3);
    MeanAtMost(SumNat(recent), |recent|, 7);
    MeanAtMost(SumNat(recent), |recent|, 14);
    if avgInterval <= 3.0 {
      frequency := Within3Days;
    } else if avgInterval <= 7.0 {
      frequency := Days4To7;
    } else if avgInterval <= 14.0 {
      frequency := Days7Plus;
    } else {
      frequency := Days14Plus;
    }
  }

  /** A 2- or 3-sample list is enough for a label; fewer gives "Unknown".
      A list with fewer than two publish times never yields a label. */
  lemma {:induction false} FewTimesUnknown(times: seq<string>)
    requires |times| < 2
    ensures FrequencyOf(Samples(times)) == Unknown
  {
  }

  /** The samples of a list whose every publish time parses are those
      day counts, in order: the estimator keeps page order. */
  lemma {:induction false} SamplesInOrder(times: seq<string>)
    requires forall i :: 0 <= i < |times| ==> DaySample(times[i]).Some?
    ensures |Samples(times)| == |times|
    ensures forall i :: 0 <= i < |times| ==> Samples(times)[i] == DaySample(times[i]).value
  {
    if times != [] {
      var init := times[..|times| - 1];
      var last := times[|times| - 1];
      assert times == init + [last];
      assert forall i :: 0 <= i < |init| ==> init[i] == times[i];
      SamplesInOrder(init);
      SamplesAppend(init, last);
    }
  }

  /** One more publish time adds its sample, if it has one, at the end. */
  lemma {:induction false} SamplesAppend(times: seq<string>, t: string)
    ensures Samples(times + [t]) == Samples(times) + (match DaySample(t) case Some(d) => [d] case None => [])
  {
    assert (times + [t])[..|times|] == times;
  }

  /** Only the first three samples matter. */
  lemma {:induction false} FrequencyUsesFirstThree(days: seq<nat>)
    requires |days| >= 3
    ensures FrequencyOf(days) == FrequencyOf(days[..3])
  {
    assert days[..3][..3] == days[..3];
  }

  lemma {:induction false} SumNatAtMost(xs: seq<nat>, hi: nat)
    requires forall i :: 0 <= i < |xs| ==> xs[i] <= hi
    ensures SumNat(xs) <= hi * |xs|
  {
    if xs != [] {
      var init := xs[..|xs| - 1];
      assert forall i :: 0 <= i < |init| ==> init[i] == xs[i];
      SumNatAtMost(init, hi);
      assert hi * |xs| == hi * |init| + hi;
    }
  }

  lemma {:induction false} SumNatAtLeast(xs: seq<nat>, lo: nat)
    requires forall i :: 0 <= i < |xs| ==> lo <= xs[i]
    ensures lo * |xs| <= SumNat(xs)
  {
    if xs != [] {
      var init := xs[..|xs| - 1];
      assert forall i :: 0 <= i < |init| ==> init[i] == xs[i];
      SumNatAtLeast(init, lo);
      assert lo * |xs| == lo * |init| + lo;
    }
  }

  /** Gaps of at most three days give the fastest label; recent gaps of
      more than fourteen days give the slowest. */
  lemma {:induction false} FrequencyExtremes(days: seq<nat>)
    requires |days| >= 2
    ensures (forall i :: 0 <= i < |days| ==> days[i] <= 3) ==> FrequencyOf(days) == Within3Days
    ensures (forall i :: 0 <= i < |days| && i < 3 ==> days[i] > 14) ==> FrequencyOf(days) == Days14Plus
  {
    var recent := Recent(days);
    assert forall i :: 0 <= i < |recent| ==> recent[i] == days[i];
    if forall i :: 0 <= i < |days| ==> days[i] <= 3 {
      SumNatAtMost(recent, 3);
    }
    if forall i :: 0 <= i < |days| && i < 3 ==> days[i] > 14 {
      SumNatAtLeast(recent, 15);
      assert 15 * |recent| > 14 * |recent|;
    }
  }
}
