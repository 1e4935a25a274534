/** The cadence rules on the publish times of a typical page. Each text is
    a parameter equal to the literal, which keeps the verifier from
    evaluating the rule chain on the literal itself. */
module CadenceExamples {
  import opened Text
  import opened Wrappers
  import opened Cadence
  import opened PublishTimes

  /** "11 weeks ago" reads as one week: the "1 week" test finds "1 week"
      inside "11 weeks" before the week-count rule is tried. */
  lemma {:induction false} ElevenWeeksReadAsOneWeek(t: string)
    requires t == "11 weeks ago"
    ensures DaySample(t) == Some(7)
  {
    assert NatString(11) == "11";
    assert t == RenderTime(11, "week", true);
    WeeksRule(11, true);
  }

  lemma {:induction false} ThreeWeeks(t: string)
    requires t == "3 weeks ago"
    ensures DaySample(t) == Some(21)
  {
    assert t == RenderTime(3, "week", true);
    WeeksRule(3, true);
  }

  /** The "Unknown" placeholder gives no sample. */
  lemma {:induction false} PlaceholderHasNoSample(t: string)
    requires t == "Unknown"
    ensures DaySample(t) == None
  {
    assert 'd' !in t && 'e' !in t && 'h' !in t && 'm' !in t && '1' !in t;
    SearchNeedsUnit(t, "day", 0);
    SearchNeedsUnit(t, "week", 1);
    MissingLetter(t, "hour", 0);
    MissingLetter(t, "minute", 0);
    MissingLetter(t, "1 week", 0);
    MissingLetter(t, "1 month", 0);
    LaterRules(t, false, None, false);
  }

  /** Two and three days between uploads give the fastest label. */
  lemma {:induction false} TwoAndThreeDays(times: seq<string>)
    requires times == ["2 days ago", "3 days ago"]
    ensures FrequencyOf(Samples(times)) == Within3Days
  {
    DaysAgo(times[0], 2);
    DaysAgo(times[1], 3);
    TwoSamples(times, 2, 3);
    FastLabel(Samples(times));
  }

  lemma {:induction false} FastLabel(days: seq<nat>)
    requires days == [2, 3]
    ensures FrequencyOf(days) == Within3Days
  {
    var first := days[..1];
    assert first[..0] == [];
    assert SumNat(first) == 2;
    assert Recent(days) == days;
  }

  lemma {:induction false} DaysAgo(t: string, n: nat)
    requires (n == 2 && t == "2 days ago") || (n == 3 && t == "3 days ago")
    ensures DaySample(t) == Some(n)
  {
    assert NatString(n) == [DigitChar(n)];
    if n == 2 {
      assert t == "2" + " " + "day" + "s" + " ago";
    } else {
      assert t == "3" + " " + "day" + "s" + " ago";
    }
    DaysRoundTrip(n, true);
  }

  lemma {:induction false} TwoSamples(times: seq<string>, a: nat, b: nat)
    requires |times| == 2 && DaySample(times[0]) == Some(a) && DaySample(times[1]) == Some(b)
    ensures Samples(times) == [a, b]
  {
    var init := times[..1];
    assert init[..0] == [];
    OneSample(init, a);
    assert Samples(times) == Samples(init) + [b];
  }

  lemma {:induction false} OneSample(times: seq<string>, a: nat)
    requires |times| == 1 && DaySample(times[0]) == Some(a)
    ensures Samples(times) == [a]
  {
    assert times[..0] == [];
  }
}
