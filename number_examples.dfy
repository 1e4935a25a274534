/** Worked examples of the numeric normalizer `parse_view_count`
    (analyze_channel.py:56-74), each derived from the general lemmas.
    The facts about each literal are proved on a parameter equal to it, which
    keeps the verifier from unfolding the definitions on the literal itself. */
module NumberExamples {
  import opened Text
  import opened Wrappers
  import opened Numbers

  /** "garbage" has no magnitude letter and does not convert: 0. */
  lemma {:induction false} ParsesGarbageAsZero()
    ensures ParseViewCount("garbage") == 0.0
  {
    CleanOf("garbage");
    LetterFreeNumeral("garbage");
    GarbageRejected("garbage");
  }

  /** "2M" is two million. */
  lemma {:induction false} ParsesTwoMillion()
    ensures ParseViewCount("2M") == 2000000.0
  {
    assert RenderCount(2, Millions, NoWord) == "2M";
    ParseRenderedCount(2, Millions, NoWord);
  }

  /** "1.5K" is fifteen hundred: the fraction survives the multiplier. */
  lemma {:induction false} ParsesOneAndAHalfThousand()
    ensures ParseViewCount("1.5K") == 1500.0
  {
    CleanOf("1.5K");
    ThousandsNumeral("1.5K");
    OneAndAHalf("1.5");
  }

  /** "10,234 views": the separator and the unit word are removed. */
  lemma {:induction false} ParsesThousandsSeparator()
    ensures ParseViewCount("10,234 views") == 10234.0
  {
    SeparatedCountCleaned("10,234 views");
    SeparatedCountValue("10234");
  }

  /** "1KM" keeps its M once the K is gone, so it does not convert: 0. */
  lemma {:induction false} ParsesTwoLettersAsZero()
    ensures ParseViewCount("1KM") == 0.0
  {
    CleanOf("1KM");
    TwoMagnitudesYieldZero("1KM");
  }

  lemma {:induction false} CleanOf(s: string)
    requires s == "garbage" || s == "1.5K" || s == "1KM"
    ensures CleanViewText(s) == s
  {
    CleanRendered(s, NoWord);
    assert s + "" == s;
  }

  lemma {:induction false} LetterFreeNumeral(s: string)
    requires s == "garbage"
    ensures Numeral(s) == s
  {
    assert 'K' !in s && 'M' !in s && 'B' !in s;
  }

  lemma {:induction false} GarbageRejected(s: string)
    requires s == "garbage"
    ensures ToFloat(s).None?
  {
    ToFloatRejects(s, 0);
  }

  lemma {:induction false} ThousandsNumeral(s: string)
    requires s == "1.5K"
    ensures Numeral(s) == "1.5" && Multiplier(s) == 1000.0
  {
    var d := s[..3];
    assert s == d + "K" && 'K' in s;
    ReplaceAllSkips(d, "K", "K", "");
    assert StartsWith("K", "K");
    assert d + [] == d;
  }

  lemma {:induction false} OneAndAHalf(s: string)
    requires s == "1.5"
    ensures ToFloat(s) == Some(1.5)
  {
    StripUnchanged(s);
    assert DigitRun(s) == 1;
    assert s[1..][1..] == "5" && s[..1] == "1";
    assert DigitsValue("5") == 5;
    assert DigitsValue("1") == 1;
  }

  lemma {:induction false} SeparatedCountCleaned(s: string)
    requires s == "10,234 views"
    ensures CleanViewText(s) == "10234"
  {
    UnitWordRemoved(s);
    SeparatorRemoved("10,234");
    StripUnchanged("10234");
  }

  lemma {:induction false} UnitWordRemoved(s: string)
    requires s == "10,234 views"
    ensures ReplaceAll(ReplaceAll(s, " views", ""), " view", "") == "10,234"
  {
    var numeral := s[..6];
    assert s == numeral + " views";
    assert forall i :: 0 <= i < |numeral| ==> numeral[i] != ' ';
    ReplaceAllSkips(numeral, " views", " views", "");
    assert StartsWith(" views", " views");
    assert " views"[6..] == [];
    assert numeral + [] == numeral;
    ReplaceAllSkips(numeral, [], " view", "");
  }

  lemma {:induction false} SeparatorRemoved(s: string)
    requires s == "10,234"
    ensures ReplaceAll(s, ",", "") == "10234"
  {
    assert s == "10" + ",234";
    ReplaceAllSkips("10", ",234", ",", "");
    assert StartsWith(",234", ",");
    assert ",234"[1..] == "234";
    ReplaceAllSkips("234", [], ",", "");
    assert "234" + [] == "234";
  }

  lemma {:induction false} SeparatedCountValue(s: string)
    requires s == "10234"
    ensures ParseCleaned(s) == 10234.0
  {
    assert NatString(10234) == s by {
      assert NatString(1) == "1";
      assert NatString(10) == "10";
      assert NatString(102) == "102";
      assert NatString(1023) == "1023";
    }
    ParseRenderedCore(10234, Units);
    assert s + Units.Letter() == s;
  }
}
