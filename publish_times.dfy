/** How the cadence rules read the publish times a page shows, written
    `N unit ago` or `N units ago`: the day and week forms read back as
    their day counts, and rule order makes every count ending in 1 read
    as "1 week" or "1 month". */
module PublishTimes {
  import opened Text
  import opened Wrappers
  import opened Cadence

  /** `N day ago`, `N days ago`, `N weeks ago`, ... */
  function RenderTime(n: nat, unit: string, plural: bool): string
  {
    NatString(n) + " " + unit + (if plural then "s" else "") + " ago"
  }

  /** A unit word of letters other than digits and white space. */
  predicate IsUnitWord(unit: string)
  {
    unit != [] && forall i :: 0 <= i < |unit| ==> !IsDigit(unit[i]) && !IsSpace(unit[i])
  }

  /** The layout of a rendered time: digits, then a space, then no digit. */
  lemma {:induction false} RenderLayout(n: nat, unit: string, plural: bool)
    requires IsUnitWord(unit)
    ensures var d := NatString(n); var s := RenderTime(n, unit, plural);
      |d| < |s| && s[..|d|] == d && s[|d|] == ' '
      && (forall p :: |d| < p < |s| ==> !IsDigit(s[p]))
      && (forall x :: x in s ==> IsDigit(x) || x in unit || x in " sago")
  {
    var d := NatString(n);
    var sfx := if plural then "s" else "";
    var s := RenderTime(n, unit, plural);
    var tail := unit + sfx + " ago";
    assert s == d + " " + tail;
    assert forall p :: |d| < p < |s| ==> s[p] == tail[p - |d| - 1];
    assert forall p :: 0 <= p < |tail| ==> tail[p] in unit || tail[p] in " sago";
    assert forall x :: x in s ==> x in d || x == ' ' || x in tail;
  }

  /** The anchored match reads the count back. */
  lemma {:induction false} AgoAtRendered(n: nat, unit: string, plural: bool)
    requires IsUnitWord(unit)
    ensures AgoAt(RenderTime(n, unit, plural), unit) == Some(n)
    ensures SearchAgo(RenderTime(n, unit, plural), unit) == Some(n)
  {
    var d := NatString(n);
    var sfx := if plural then "s" else "";
    assert RenderTime(n, unit, plural) == d + (" " + unit + sfx + " ago");
    AgoAtOf(d, unit, sfx);
    NatStringValue(n);
  }

  lemma {:induction false} AgoAtOf(d: string, unit: string, sfx: string)
    requires d != [] && AllDigits(d) && IsUnitWord(unit) && (sfx == "s" || sfx == "")
    ensures AgoAt(d + (" " + unit + sfx + " ago"), unit) == Some(DigitsValue(d))
  {
    var t := unit + (sfx + " ago");
    var tail := " " + t;
    assert tail == " " + unit + sfx + " ago";
    var s := d + tail;
    DigitRunOf(d, tail);
    assert s[|d|..] == tail;
    SpaceRunOne(t);
    var a := |d| + 1;
    assert s[a..] == t;
    assert t[..|unit|] == unit;
    assert s[a + |unit|..] == sfx + " ago";
    AgoSuffix(sfx + " ago", sfx);
    AgoAtFromParts(s, unit, |d|, a);
  }

  /** The anchored match, piece by piece. */
  lemma {:induction false} AgoAtFromParts(s: string, unit: string, n: nat, a: nat)
    requires 0 < n == DigitRun(s)
    requires n < a <= |s| && a == n + SpaceRun(s[n..])
    requires StartsWith(s[a..], unit)
    requires AgoAfterUnit(s[a + |unit|..])
    ensures AgoAt(s, unit) == Some(DigitsValue(s[..n]))
  {
    assert AgoAt(s, unit) == AgoFrom(s, unit, n, a);
  }

  /** " ago" and "s ago" complete the match after the unit. */
  lemma {:induction false} AgoSuffix(r: string, sfx: string)
    requires (sfx == "s" || sfx == "") && r == sfx + " ago"
    ensures AgoAfterUnit(r)
  {
    var c := |sfx|;
    assert r[c..] == " ago";
    assert SpaceRun(r[c..]) == 1 by {
      assert r[c..][1..] == "ago";
    }
    assert r[c + 1..] == "ago";
  }

  lemma {:induction false} SpaceRunOne(r: string)
    requires r != [] && !IsSpace(r[0])
    ensures SpaceRun(" " + r) == 1
  {
    assert (" " + r)[1..] == r;
  }

  /** A letter of neither the unit nor " sago" does not occur. */
  lemma {:induction false} LetterAbsent(n: nat, unit: string, plural: bool, x: char)
    requires IsUnitWord(unit) && !IsDigit(x) && x !in unit && x !in " sago"
    ensures x !in RenderTime(n, unit, plural)
  {
    RenderLayout(n, unit, plural);
  }

  /** A text lacking one of the characters of `sub` does not contain it. */
  lemma {:induction false} MissingLetter(s: string, sub: string, k: nat)
    requires k < |sub| && sub[k] !in s
    ensures !Contains(s, sub)
  {
    if Contains(s, sub) {
      ContainsChars(s, sub, k);
    }
  }

  /** The text holds no "hour", "minute" or day-count match when its unit
      word has none of the letters 'u', 'i' and 'd'. */
  lemma {:induction false} NoEarlierRule(n: nat, unit: string, plural: bool)
    requires IsUnitWord(unit) && 'u' !in unit && 'i' !in unit && 'd' !in unit
    ensures var s := RenderTime(n, unit, plural);
      SearchAgo(s, "day") == None && !Contains(s, "hour") && !Contains(s, "minute")
  {
    var s := RenderTime(n, unit, plural);
    LetterAbsent(n, unit, plural, 'd');
    SearchNeedsUnit(s, "day", 0);
    LetterAbsent(n, unit, plural, 'u');
    MissingLetter(s, "hour", 2);
    LetterAbsent(n, unit, plural, 'i');
    MissingLetter(s, "minute", 1);
  }

  /** "1 <unit>" occurs in a rendered time exactly when the count's last
      digit is 1 (as in "1 week ago", but also "11 weeks ago"). */
  lemma {:induction false} OneUnitOccurs(n: nat, unit: string, plural: bool, pat: string)
    requires IsUnitWord(unit) && pat == "1 " + unit
    ensures Contains(RenderTime(n, unit, plural), pat) <==> n % 10 == 1
  {
    var d := NatString(n);
    var s := RenderTime(n, unit, plural);
    NatStringLast(n);
    if n % 10 == 1 {
      var i := |d| - 1;
      assert s == d[..i] + pat + ((if plural then "s" else "") + " ago");
      assert s[i..i + |pat|] == pat;
      assert OccursAt(s, pat, i);
    } else {
      forall i: nat | OccursAt(s, pat, i) ensures false {
        OneUnitPosition(n, unit, plural, i);
      }
    }
  }

  /** "1 <unit>" can start only at the last digit of the count. */
  lemma {:induction false} OneUnitPosition(n: nat, unit: string, plural: bool, i: nat)
    requires IsUnitWord(unit)
    requires OccursAt(RenderTime(n, unit, plural), "1 " + unit, i)
    ensures n % 10 == 1
  {
    var d := NatString(n);
    var s := RenderTime(n, unit, plural);
    RenderLayout(n, unit, plural);
    NatStringLast(n);
    assert s[i] == '1' && s[i + 1] == ' ' by {
      assert s[i..i + 2 + |unit|][0] == '1';
      assert s[i..i + 2 + |unit|][1] == ' ';
    }
    assert i < |d|;
    assert i + 1 >= |d|;
    assert s[i] == d[|d| - 1];
  }

  /** The last digit of a written count. */
  lemma {:induction false} NatStringLast(n: nat)
    ensures NatString(n)[|NatString(n)| - 1] == DigitChar(n % 10)
  {
  }

  /** "N day(s) ago" gives N. */
  lemma {:induction false} DaysRoundTrip(n: nat, plural: bool)
    ensures DaySample(RenderTime(n, "day", plural)) == Some(n)
  {
    AgoAtRendered(n, "day", plural);
  }

  /** "N hour(s) ago" and "N minute(s) ago" give 0, whatever N is. */
  lemma {:induction false} RecentRule(n: nat, unit: string, plural: bool)
    requires unit == "hour" || unit == "minute"
    ensures DaySample(RenderTime(n, unit, plural)) == Some(0)
  {
    var s := RenderTime(n, unit, plural);
    var d := NatString(n);
    assert IsUnitWord(unit) && 'd' !in unit;
    LetterAbsent(n, unit, plural, 'd');
    SearchNeedsUnit(s, "day", 0);
    assert s == d + " " + unit + (if plural then "s" else "") + " ago";
    assert s[|d| + 1..|d| + 1 + |unit|] == unit;
    assert OccursAt(s, unit, |d| + 1);
  }

  /** The rule chain on a time that none of the first two rules matches. */
  lemma {:induction false} LaterRules(t: string, oneWeek: bool, weeks: Option<nat>, oneMonth: bool)
    requires SearchAgo(t, "day") == None && !Contains(t, "hour") && !Contains(t, "minute")
    requires Contains(t, "1 week") == oneWeek && SearchAgo(t, "week") == weeks
    requires Contains(t, "1 month") == oneMonth
    ensures DaySample(t) ==
      if oneWeek then Some(7)
      else if weeks.Some? then Some(weeks.value * 7)
      else if oneMonth then Some(30) else None
  {
  }

  /** The facts about the two unit words the rules below need. */
  lemma {:induction false} UnitWords()
    ensures IsUnitWord("week") && 'u' !in "week" && 'i' !in "week" && 'd' !in "week"
    ensures IsUnitWord("month") && 'u' !in "month" && 'i' !in "month" && 'd' !in "month" && 'w' !in "month"
    ensures "1 week" == "1 " + "week" && "1 month" == "1 " + "month"
    ensures "1 week"[2] == 'w'
  {
  }

  /** "N week(s) ago" gives 7N unless N ends in 1, when the "1 week" rule,
      tried first, gives 7. */
  lemma {:induction false} WeeksRule(n: nat, plural: bool)
    ensures DaySample(RenderTime(n, "week", plural)) == Some(if n % 10 == 1 then 7 else 7 * n)
  {
    if n % 10 == 1 {
      OneWeekRule(n, plural);
    } else {
      ManyWeeksRule(n, plural);
    }
  }

  lemma {:induction false} OneWeekRule(n: nat, plural: bool)
    requires n % 10 == 1
    ensures DaySample(RenderTime(n, "week", plural)) == Some(7)
  {
    UnitWords();
    var s := RenderTime(n, "week", plural);
    NoEarlierRule(n, "week", plural);
    OneUnitOccurs(n, "week", plural, "1 week");
    LaterRules(s, true, SearchAgo(s, "week"), Contains(s, "1 month"));
  }

  lemma {:induction false} ManyWeeksRule(n: nat, plural: bool)
    requires n % 10 != 1
    ensures DaySample(RenderTime(n, "week", plural)) == Some(7 * n)
  {
    UnitWords();
    var s := RenderTime(n, "week", plural);
    NoEarlierRule(n, "week", plural);
    OneUnitOccurs(n, "week", plural, "1 week");
    AgoAtRendered(n, "week", plural);
    LaterRules(s, false, Some(n), Contains(s, "1 month"));
  }

  /** "N month(s) ago" gives 30 when N ends in 1 and no sample otherwise. */
  lemma {:induction false} MonthsRule(n: nat, plural: bool)
    ensures DaySample(RenderTime(n, "month", plural)) == if n % 10 == 1 then Some(30) else None
  {
    NoWeekRule(n, plural);
    if n % 10 == 1 {
      OneMonthRule(n, plural);
    } else {
      ManyMonthsRule(n, plural);
    }
  }

  /** No rule before the "1 month" rule matches a month count. */
  lemma {:induction false} NoWeekRule(n: nat, plural: bool)
    ensures var s := RenderTime(n, "month", plural);
      SearchAgo(s, "day") == None && !Contains(s, "hour") && !Contains(s, "minute")
      && !Contains(s, "1 week") && SearchAgo(s, "week") == None
  {
    UnitWords();
    var s := RenderTime(n, "month", plural);
    NoEarlierRule(n, "month", plural);
    LetterAbsent(n, "month", plural, 'w');
    MissingLetter(s, "1 week", 2);
    SearchNeedsUnit(s, "week", 0);
  }

  lemma {:induction false} OneMonthRule(n: nat, plural: bool)
    requires n % 10 == 1
    ensures DaySample(RenderTime(n, "month", plural)) == Some(30)
  {
    UnitWords();
    var s := RenderTime(n, "month", plural);
    NoWeekRule(n, plural);
    OneUnitOccurs(n, "month", plural, "1 month");
    LaterRules(s, false, None, true);
  }

  lemma {:induction false} ManyMonthsRule(n: nat, plural: bool)
    requires n % 10 != 1
    ensures DaySample(RenderTime(n, "month", plural)) == None
  {
    UnitWords();
    var s := RenderTime(n, "month", plural);
    NoWeekRule(n, plural);
    OneUnitOccurs(n, "month", plural, "1 month");
    LaterRules(s, false, None, false);
  }
}
