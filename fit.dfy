/** The collaboration-fit scorer `evaluate_happycapy_fit`
    (analyze_channel.py:132-217): four category counters, a four-tier
    rating, and the list of reasons behind it. */
module Fit {
  import opened Text
  import opened Numbers
  import opened Extraction
  import opened Keywords
  import opened Metrics

  /** The four category counters. */
  datatype Scores = Scores(aiTools: nat, money: nat, learning: nat, dev: nat) {
    /** The number of categories with at least two matching titles. */
    function Matched(): nat
    {
      (if aiTools >= 2 then 1 else 0) + (if money >= 2 then 1 else 0)
      + (if learning >= 2 then 1 else 0) + (if dev >= 2 then 1 else 0)
    }

    /** All matches over the four categories. */
    function Total(): nat
    {
      aiTools + money + learning + dev
    }

    /** Every counter at most the matching one of `other`. */
    predicate AtMost(other: Scores)
    {
      aiTools <= other.aiTools && money <= other.money && learning <= other.learning && dev <= other.dev
    }
  }

  /** The counters a list of videos produces: a title adds one to each
      category it matches, however many of its keywords it contains. */
  function ScoresOf(videos: seq<VideoRecord>): (s: Scores)
    ensures s.aiTools <= |videos| && s.money <= |videos| && s.learning <= |videos| && s.dev <= |videos|
  {
    Scores(CountMatching(videos, AI_TOOL_KEYWORDS), CountMatching(videos, MONEY_KEYWORDS),
           CountMatching(videos, LEARNING_KEYWORDS), CountMatching(videos, DEV_KEYWORDS))
  }

  datatype Rating = High | MediumHigh | Medium | Low {
    function Label(): string
    {
      match this
      case High => "高-hpcp"
      case MediumHigh => "中高-hpcp"
      case Medium => "中-hpcp"
      case Low => "低-hpcp"
    }

    /** Position in the order Low < Medium < MediumHigh < High. */
    function Rank(): nat
    {
      match this
      case Low => 0
      case Medium => 1
      case MediumHigh => 2
      case High => 3
    }
  }

  /** The first tier whose condition holds. */
  function RatingOf(s: Scores): Rating
  {
    if s.Matched() >= 3 || s.Total() >= 8 then High
    else if s.Matched() >= 2 || s.Total() >= 5 then MediumHigh
    else if s.Matched() >= 1 || s.Total() >= 2 then Medium
    else Low
  }

  /** One entry of the reason list. The engagement and viral entries carry
      the number the source formats into their text. */
  datatype Reason =
    | AiToolsStrong | MoneyStrong | LearningCategory | DevStrong
    | AiToolsRelated | MoneyRelated | DevRelated
    | NoCategoryMatch
    | HighEngagement(rate: real)
    | ModerateEngagement(rate: real)
    | ViralPotential(views: int)
  {
    /** The text of the entry, without the formatted number. */
    function Label(): string
    {
      match this
      case AiToolsStrong => "✅AI工具类"
      case MoneyStrong => "✅副业赚钱类"
      case LearningCategory => "✅学习/效率提升类"
      case DevStrong => "✅专业开发者类"
      case AiToolsRelated => "✅AI工具相关"
      case MoneyRelated => "✅副业赚钱相关"
      case DevRelated => "✅开发者相关"
      case NoCategoryMatch => "❌不匹配目标分类"
      case HighEngagement(_) => "✅高互动率"
      case ModerateEngagement(_) => "⚠️中等互动率"
      case ViralPotential(_) => "✅有爆款潜力"
    }

    predicate IsCategory()
    {
      !HighEngagement? && !ModerateEngagement? && !ViralPotential?
    }
  }

  function If(c: bool, r: Reason): seq<Reason>
  {
    if c then [r] else []
  }

  /** The category reasons of a tier: the top tier names the categories
      with two or more matches, the middle tiers those with one or more,
      the lowest tier says that nothing matched. */
  function CategoryReasons(rating: Rating, s: Scores): seq<Reason>
  {
    match rating
    case High =>
      If(s.aiTools >= 2, AiToolsStrong) + If(s.money >= 2, MoneyStrong)
      + If(s.learning >= 2, LearningCategory) + If(s.dev >= 2, DevStrong)
    case Low => [NoCategoryMatch]
    case _ =>
      If(s.aiTools >= 1, AiToolsRelated) + If(s.money >= 1, MoneyRelated)
      + If(s.learning >= 1, LearningCategory) + If(s.dev >= 1, DevRelated)
  }

  /** The engagement reason: average views over subscribers, in percent. */
  function EngagementReasons(subscriberNumeric: int, averageViews: int): seq<Reason>
  {
    if subscriberNumeric > 0 then
      var rate := (averageViews as real / subscriberNumeric as real) * 100.0;
      if rate >= 70.0 then [HighEngagement(rate)]
      else if rate >= 50.0 then [ModerateEngagement(rate)]
      else []
    else []
  }

  /** The largest value of a non-empty list. */
  function Max(xs: seq<real>): (m: real)
    requires xs != []
    ensures forall i :: 0 <= i < |xs| ==> xs[i] <= m
    ensures exists i :: 0 <= i < |xs| && xs[i] == m
  {
    if |xs| == 1 then xs[0]
    else
      var m := Max(xs[..|xs| - 1]);
      assert forall i :: 0 <= i < |xs| - 1 ==> xs[..|xs| - 1][i] == xs[i];
      if xs[|xs| - 1] > m then xs[|xs| - 1] else m
  }

  /** The viral reason: the best video beats three times the mean. */
  function ViralReasons(views: seq<real>): seq<Reason>
  {
    if views == [] then []
    else
      var avgViews := Sum(views) / |views| as real;
      var maxViews := Max(views);
      if maxViews > avgViews * 3.0 then [ViralPotential(Trunc(maxViews))] else []
  }

  /** The reasons of the two middle tiers, which the source writes out
      twice with the same text. */
  method RelatedReasons(scores: Scores) returns (reason: seq<Reason>)
    ensures reason == CategoryReasons(Medium, scores) && reason == CategoryReasons(MediumHigh, scores)
  {
    reason := [];
    if scores.aiTools >= 1 { reason := reason + [AiToolsRelated]; }
    assert reason == If(scores.aiTools >= 1, AiToolsRelated);
    if scores.money >= 1 { reason := reason + [MoneyRelated]; }
    assert reason == If(scores.aiTools >= 1, AiToolsRelated) + If(scores.money >= 1, MoneyRelated);
    if scores.learning >= 1 { reason := reason + [LearningCategory]; }
    assert reason == If(scores.aiTools >= 1, AiToolsRelated) + If(scores.money >= 1, MoneyRelated)
      + If(scores.learning >= 1, LearningCategory);
    if scores.dev >= 1 { reason := reason + [DevRelated]; }
  }

  /** The tier decision and its category reasons. */
  method RateScores(scores: Scores) returns (rating: Rating, reason: seq<Reason>)
    ensures rating == RatingOf(scores)
    ensures reason == CategoryReasons(rating, scores)
  {
    var matchedCategories := scores.Matched();
    var totalMatches := scores.Total();
    if matchedCategories >= 3 || totalMatches >= 8 {
      rating := High;
      reason := [];
      if scores.aiTools >= 2 { reason := reason + [AiToolsStrong]; }
      assert reason == If(scores.aiTools >= 2, AiToolsStrong);
      if scores.money >= 2 { reason := reason + [MoneyStrong]; }
      assert reason == If(scores.aiTools >= 2, AiToolsStrong) + If(scores.money >= 2, MoneyStrong);
      if scores.learning >= 2 { reason := reason + [LearningCategory]; }
      assert reason == If(scores.aiTools >= 2, AiToolsStrong) + If(scores.money >= 2, MoneyStrong)
        + If(scores.learning >= 2, LearningCategory);
      if scores.dev >= 2 { reason := reason + [DevStrong]; }
    } else if matchedCategories >= 2 || totalMatches >= 5 {
      rating := MediumHigh;
      reason := RelatedReasons(scores);
    } else if matchedCategories >= 1 || totalMatches >= 2 {
      rating := Medium;
      reason := RelatedReasons(scores);
    } else {
      rating := Low;
      reason := [NoCategoryMatch];
    }
  }

  /** The engagement check: appends at most one entry. */
  method AddEngagement(reason: seq<Reason>, subscriberNumeric: int, averageViews: int) returns (reason': seq<Reason>)
    ensures reason' == reason + EngagementReasons(subscriberNumeric, averageViews)
  {
    reason' := reason;
    if subscriberNumeric > 0 {
      var engagementRate := (averageViews as real / subscriberNumeric as real) * 100.0;
      if engagementRate >= 70.0 {
        reason' := reason' + [HighEngagement(engagementRate)];
      } else if engagementRate >= 50.0 {
        reason' := reason' + [ModerateEngagement(engagementRate)];
      }
    }
  }

  /** The viral check on the parsed view counts of the videos: appends at
      most one entry. */
  method AddViral(reason: seq<Reason>, viewsList: seq<real>) returns (reason': seq<Reason>)
    ensures reason' == reason + ViralReasons(viewsList)
  {
    reason' := reason;
    if |viewsList| > 0 {
      var avgViews := Sum(viewsList) / |viewsList| as real;
      var maxViews := Max(viewsList);
      if maxViews > avgViews * 3.0 {
        reason' := reason' + [ViralPotential(Trunc(maxViews))];
      }
    }
  }

  /** What `evaluate_happycapy_fit` returns; the reasons are kept as a list
      (the source joins their texts with spaces). */
  datatype FitResult = FitResult(rating: Rating, reasons: seq<Reason>, scores: Scores)

  /** The result `evaluate_happycapy_fit` computes: the counters, the tier
      they select, then the category, engagement and viral reasons in that
      order. */
  function FitOf(videos: seq<VideoRecord>, subscriberNumeric: int, averageViews: int): FitResult
  {
    var s := ScoresOf(videos);
    var rating := RatingOf(s);
    FitResult(rating, CategoryReasons(rating, s) + EngagementReasons(subscriberNumeric, averageViews)
                      + ViralReasons(ViewValues(videos)), s)
  }

  /** `evaluate_happycapy_fit`: counts the categories title by title, picks
      the tier, then appends the category, engagement and viral reasons. */
  method EvaluateFit(videos: seq<VideoRecord>, subscriberNumeric: int, averageViews: int) returns (fit: FitResult)
    ensures fit == FitOf(videos, subscriberNumeric, averageViews)
  {
    var scores := CountCategories(videos);
    var rating, reason := RateScores(scores);
    reason := AddEngagement(reason, subscriberNumeric, averageViews);
    reason := AddViral(reason, ViewValues(videos));
    fit := FitResult(rating, reason, scores);
  }

  /** The scoring loop: one pass over the titles, each adding one to every
      category it matches. */
  method CountCategories(videos: seq<VideoRecord>) returns (scores: Scores)
    ensures scores == ScoresOf(videos)
  {
    scores := Scores(0, 0, 0, 0);
    for i := 0 to |videos|
      invariant scores == ScoresOf(videos[..i])
    {
      ScoresAppend(videos[..i], videos[i]);
      assert videos[..i + 1] == videos[..i] + [videos[i]];
      scores := ScoreTitle(scores, videos[i]);
    }
    assert videos[..|videos|] == videos;
  }

  /** The body of the scoring loop for one video. */
  method ScoreTitle(scores: Scores, video: VideoRecord) returns (scores': Scores)
    ensures scores' == Scores(
      scores.aiTools + (if TitleMatches(video, AI_TOOL_KEYWORDS) then 1 else 0),
      scores.money + (if TitleMatches(video, MONEY_KEYWORDS) then 1 else 0),
      scores.learning + (if TitleMatches(video, LEARNING_KEYWORDS) then 1 else 0),
      scores.dev + (if TitleMatches(video, DEV_KEYWORDS) then 1 else 0))
  {
    scores' := scores;
    var titleLower := Lower(video.title);
    if MatchesAny(titleLower, AI_TOOL_KEYWORDS) {
      scores' := scores'.(aiTools := scores'.aiTools + 1);
    }
    if MatchesAny(titleLower, MONEY_KEYWORDS) {
      scores' := scores'.(money := scores'.money + 1);
    }
    if MatchesAny(titleLower, LEARNING_KEYWORDS) {
      scores' := scores'.(learning := scores'.learning + 1);
    }
    if MatchesAny(titleLower, DEV_KEYWORDS) {
      scores' := scores'.(dev := scores'.dev + 1);
    }
  }

  /** One more title adds one to each category it matches. */
  lemma {:induction false} ScoresAppend(videos: seq<VideoRecord>, v: VideoRecord)
    ensures var s := ScoresOf(videos);
      ScoresOf(videos + [v]) == Scores(
        s.aiTools + (if TitleMatches(v, AI_TOOL_KEYWORDS) then 1 else 0),
        s.money + (if TitleMatches(v, MONEY_KEYWORDS) then 1 else 0),
        s.learning + (if TitleMatches(v, LEARNING_KEYWORDS) then 1 else 0),
        s.dev + (if TitleMatches(v, DEV_KEYWORDS) then 1 else 0))
  {
    CountMatchingAppend(videos, v, AI_TOOL_KEYWORDS);
    CountMatchingAppend(videos, v, MONEY_KEYWORDS);
    CountMatchingAppend(videos, v, LEARNING_KEYWORDS);
    CountMatchingAppend(videos, v, DEV_KEYWORDS);
  }

  /** The lowest tier is exactly the case of at most one match in all. */
  lemma {:induction false} RatingLowIff(s: Scores)
    ensures RatingOf(s) == Low <==> s.Total() <= 1
  {
  }

  /** More matches never lower the tier. */
  lemma {:induction false} RatingMonotone(s: Scores, t: Scores)
    requires s.AtMost(t)
    ensures RatingOf(s).Rank() <= RatingOf(t).Rank()
  {
  }

  /** Three categories with two matches each reach the top tier through
      the category rule; one match in each of two categories reaches the
      middle tier through the total rule. */
  lemma {:induction false} TierExamples()
    ensures RatingOf(Scores(2, 2, 2, 0)) == High
    ensures CategoryReasons(High, Scores(2, 2, 2, 0)) == [AiToolsStrong, MoneyStrong, LearningCategory]
    ensures RatingOf(Scores(1, 1, 0, 0)) == Medium
    ensures CategoryReasons(Medium, Scores(1, 1, 0, 0)) == [AiToolsRelated, MoneyRelated]
  {
  }

  /** Every tier gives at least one category reason: eight matches over
      four counters put two in one of them, and one match is enough for a
      middle tier to name its category. */
  lemma {:induction false} CategoryReasonsNonEmpty(s: Scores)
    ensures CategoryReasons(RatingOf(s), s) != []
  {
  }

  /** The top tier's reasons name exactly the categories with two or more
      matching titles. */
  lemma {:induction false} StrongReasonsNameCategories(s: Scores)
    ensures var c := CategoryReasons(High, s);
      (AiToolsStrong in c <==> s.aiTools >= 2) && (MoneyStrong in c <==> s.money >= 2)
      && (LearningCategory in c <==> s.learning >= 2) && (DevStrong in c <==> s.dev >= 2)
    ensures forall k :: 0 <= k < |CategoryReasons(High, s)| ==> CategoryReasons(High, s)[k].IsCategory()
  {
    InIf(s.aiTools >= 2, AiToolsStrong, If(s.money >= 2, MoneyStrong), If(s.learning >= 2, LearningCategory), If(s.dev >= 2, DevStrong));
  }

  /** The middle tiers' reasons name exactly the categories with at least
      one matching title. */
  lemma {:induction false} RelatedReasonsNameCategories(s: Scores, rating: Rating)
    requires rating == MediumHigh || rating == Medium
    ensures var c := CategoryReasons(rating, s);
      (AiToolsRelated in c <==> s.aiTools >= 1) && (MoneyRelated in c <==> s.money >= 1)
      && (LearningCategory in c <==> s.learning >= 1) && (DevRelated in c <==> s.dev >= 1)
    ensures forall k :: 0 <= k < |CategoryReasons(rating, s)| ==> CategoryReasons(rating, s)[k].IsCategory()
  {
    InIf(s.aiTools >= 1, AiToolsRelated, If(s.money >= 1, MoneyRelated), If(s.learning >= 1, LearningCategory), If(s.dev >= 1, DevRelated));
  }

  /** Membership in four optional entries of distinct kinds, each listed
      at most once. */
  lemma {:induction false} InIf(c: bool, r: Reason, b: seq<Reason>, l: seq<Reason>, d: seq<Reason>)
    ensures forall x :: x in If(c, r) + b + l + d <==> (x in If(c, r) || x in b || x in l || x in d)
  {
  }

  /** `q * n == a` with `n > 0`: `q` reaches a bound exactly when `a`
      reaches that bound times `n`. */
  lemma {:induction false} QuotientAtLeast(q: real, n: real, a: real, c: real)
    requires n > 0.0 && q * n == a
    ensures q >= c <==> a >= c * n
  {
    if q >= c {
      MulLe(c, q, n);
    } else {
      MulLt(q, c, n);
    }
  }

  /** At most one engagement entry, present exactly when the average
      reaches half the subscriber count, and the high form exactly when it
      reaches seven tenths of it. */
  lemma {:induction false} EngagementIff(subscriberNumeric: int, averageViews: int)
    ensures var e := EngagementReasons(subscriberNumeric, averageViews);
      |e| <= 1
      && (e != [] <==> subscriberNumeric > 0 && 2 * averageViews >= subscriberNumeric)
      && (e != [] ==> e[0].HighEngagement? || e[0].ModerateEngagement?)
      && (e != [] ==> (e[0].HighEngagement? <==> 10 * averageViews >= 7 * subscriberNumeric))
  {
    if subscriberNumeric > 0 {
      var n := subscriberNumeric as real;
      var a := averageViews as real;
      var q := a / n;
      assert q * n == a;
      QuotientAtLeast(q, n, a, 0.7);
      QuotientAtLeast(q, n, a, 0.5);
    }
  }

  /** At most one viral entry, present exactly when the best video has
      more than three times the mean, that is `max * n > 3 * sum`; the
      mean, the count and the maximum are named by the parameters. */
  lemma {:induction false} ViralIff(views: seq<real>, total: real, n: real, m: real)
    requires views != [] && total == Sum(views) && n == |views| as real && m == Max(views)
    ensures var v := ViralReasons(views);
      |v| <= 1
      && (v != [] <==> m * n > 3.0 * total)
      && (v != [] ==> v[0] == ViralPotential(Trunc(m)))
  {
    assert ViralReasons(views) == if m > (total / n) * 3.0 then [ViralPotential(Trunc(m))] else [];
    ExceedsTriple(total, n, m);
  }

  /** `m` exceeds three times the mean `total / n` exactly when `m * n` exceeds three times `total`. */
  lemma {:induction false} ExceedsTriple(total: real, n: real, m: real)
    requires n > 0.0
    ensures m > (total / n) * 3.0 <==> m * n > 3.0 * total
  {
    var avg := total / n;
    assert avg * n == total;
    var t := avg * 3.0;
    assert t * n == 3.0 * total;
    if m > t {
      MulLt(t, m, n);
    } else {
      MulLe(m, t, n);
    }
  }

  lemma {:induction false} SumNonNegative(xs: seq<real>)
    requires forall i :: 0 <= i < |xs| ==> xs[i] >= 0.0
    ensures Sum(xs) >= 0.0
  {
    if xs != [] {
      SumNonNegative(xs[..|xs| - 1]);
    }
  }

  /** With no negative value, the largest is at most the sum. */
  lemma {:induction false} MaxAtMostSum(xs: seq<real>)
    requires xs != []
    requires forall i :: 0 <= i < |xs| ==> xs[i] >= 0.0
    ensures Max(xs) <= Sum(xs)
  {
    if |xs| == 1 {
      assert Sum(xs) == Sum([]) + xs[0];
    } else {
      var p := xs[..|xs| - 1];
      MaxAtMostSum(p);
      SumNonNegative(p);
    }
  }

  /** With at most three videos and no negative count, no video can have
      more than three times the mean: the viral check never fires. */
  lemma {:induction false} NoViralInThreeOrFewer(views: seq<real>)
    requires |views| <= 3
    requires forall i :: 0 <= i < |views| ==> views[i] >= 0.0
    ensures ViralReasons(views) == []
  {
    if views != [] {
      var n := |views| as real;
      var m := Max(views);
      ViralIff(views, Sum(views), n, m);
      MaxAtMostSum(views);
      if m > 0.0 {
        MulLe(n, 3.0, m);
      }
    }
  }

  /** The "no match" entry appears exactly in the lowest tier, whatever
      entries other than it follow the category reasons. */
  lemma {:induction false} NoCategoryMatchIn(rating: Rating, s: Scores, e: seq<Reason>, v: seq<Reason>)
    requires NoCategoryMatch !in e && NoCategoryMatch !in v
    ensures NoCategoryMatch in CategoryReasons(rating, s) + e + v <==> rating == Low
  {
    if rating == High {
      StrongReasonsNameCategories(s);
    } else if rating != Low {
      RelatedReasonsNameCategories(s, rating);
    }
  }

  /** The result's reasons include the "no match" entry exactly when it
      is rated in the lowest tier: the engagement and viral entries are
      never that entry. */
  lemma {:induction false} NoCategoryMatchIff(videos: seq<VideoRecord>, subscriberNumeric: int, averageViews: int)
    ensures var fit := FitOf(videos, subscriberNumeric, averageViews);
      NoCategoryMatch in fit.reasons <==> fit.rating == Low
  {
    var s := ScoresOf(videos);
    var e := EngagementReasons(subscriberNumeric, averageViews);
    var v := ViralReasons(ViewValues(videos));
    MetricReasonsAreNotCategories(subscriberNumeric, averageViews, ViewValues(videos));
    NoCategoryMatchIn(RatingOf(s), s, e, v);
  }

  lemma {:induction false} MetricReasonsAreNotCategories(subscriberNumeric: int, averageViews: int, views: seq<real>)
    ensures NoCategoryMatch !in EngagementReasons(subscriberNumeric, averageViews)
    ensures NoCategoryMatch !in ViralReasons(views)
  {
  }

  /** A channel none of whose titles matches any category keyword is rated
      in the lowest tier, whose only category reason says so. */
  lemma {:induction false} NoMatchingTitlesIsLow(videos: seq<VideoRecord>)
    requires forall i :: 0 <= i < |videos| ==>
      !TitleMatches(videos[i], AI_TOOL_KEYWORDS) && !TitleMatches(videos[i], MONEY_KEYWORDS)
      && !TitleMatches(videos[i], LEARNING_KEYWORDS) && !TitleMatches(videos[i], DEV_KEYWORDS)
    ensures RatingOf(ScoresOf(videos)) == Low
    ensures CategoryReasons(RatingOf(ScoresOf(videos)), ScoresOf(videos)) == [NoCategoryMatch]
  {
    NoneMatch(videos, AI_TOOL_KEYWORDS);
    NoneMatch(videos, MONEY_KEYWORDS);
    NoneMatch(videos, LEARNING_KEYWORDS);
    NoneMatch(videos, DEV_KEYWORDS);
  }

  lemma {:induction false} NoneMatch(videos: seq<VideoRecord>, keywords: seq<string>)
    requires forall i :: 0 <= i < |videos| ==> !TitleMatches(videos[i], keywords)
    ensures CountMatching(videos, keywords) == 0
  {
    CountMatchingExtremes(videos, keywords);
  }

  lemma {:induction false} AllMatch(videos: seq<VideoRecord>, keywords: seq<string>)
    requires forall i :: 0 <= i < |videos| ==> TitleMatches(videos[i], keywords)
    ensures CountMatching(videos, keywords) == |videos|
  {
    CountMatchingExtremes(videos, keywords);
  }

  /** Two or more videos whose every title matches all four categories reach the
      top tier and name all four. */
  lemma {:induction false} AllCategoriesIsHigh(videos: seq<VideoRecord>)
    requires |videos| >= 2
    requires forall i :: 0 <= i < |videos| ==>
      TitleMatches(videos[i], AI_TOOL_KEYWORDS) && TitleMatches(videos[i], MONEY_KEYWORDS)
      && TitleMatches(videos[i], LEARNING_KEYWORDS) && TitleMatches(videos[i], DEV_KEYWORDS)
    ensures RatingOf(ScoresOf(videos)) == High
    ensures CategoryReasons(RatingOf(ScoresOf(videos)), ScoresOf(videos))
      == [AiToolsStrong, MoneyStrong, LearningCategory, DevStrong]
  {
    AllMatch(videos, AI_TOOL_KEYWORDS);
    AllMatch(videos, MONEY_KEYWORDS);
    AllMatch(videos, LEARNING_KEYWORDS);
    AllMatch(videos, DEV_KEYWORDS);
  }
}
