/** The AI-relevance classifier `check_ai_relevance`
    (analyze_channel.py:117-129). */
module Relevance {
  import opened Text
  import opened Extraction
  import opened Keywords

  /** At least 60% of the titles match an AI keyword, as an exact integer
      comparison: `count >= 0.6 * len` is `5 * count >= 3 * len`. */
  predicate IsAiRelevant(videos: seq<VideoRecord>)
  {
    5 * CountMatching(videos, AI_KEYWORDS) >= 3 * |videos|
  }

  /** `check_ai_relevance`: counts the matching titles, then compares with
      the 60% threshold. */
  method CheckAiRelevance(videos: seq<VideoRecord>) returns (relevant: bool)
    ensures relevant == IsAiRelevant(videos)
  {
    var relevantCount := 0;
    for i := 0 to |videos|
      invariant relevantCount == CountMatching(videos[..i], AI_KEYWORDS)
    {
      CountMatchingAppend(videos[..i], videos[i], AI_KEYWORDS);
      assert videos[..i + 1] == videos[..i] + [videos[i]];
      if MatchesAny(Lower(videos[i].title), AI_KEYWORDS) {
        relevantCount := relevantCount + 1;
      }
    }
    assert videos[..|videos|] == videos;
    relevant := relevantCount as real >= |videos| as real * 0.6;
  }

  /** An empty list is relevant: 0 >= 0.6 * 0. */
  lemma {:induction false} EmptyIsRelevant()
    ensures IsAiRelevant([])
  {
  }

  /** A list whose every title matches is relevant; a non-empty list with
      no matching title is not. */
  lemma {:induction false} RelevanceExtremes(videos: seq<VideoRecord>)
    ensures (forall i :: 0 <= i < |videos| ==> TitleMatches(videos[i], AI_KEYWORDS)) ==> IsAiRelevant(videos)
    ensures videos != [] && (forall i :: 0 <= i < |videos| ==> !TitleMatches(videos[i], AI_KEYWORDS)) ==> !IsAiRelevant(videos)
  {
    CountMatchingExtremes(videos, AI_KEYWORDS);
  }

  /** Adding a matching video to a relevant list keeps it relevant, and
      adding a non-matching one to a list that is not relevant keeps it so. */
  lemma {:induction false} RelevanceMonotone(videos: seq<VideoRecord>, v: VideoRecord)
    ensures IsAiRelevant(videos) && TitleMatches(v, AI_KEYWORDS) ==> IsAiRelevant(videos + [v])
    ensures !IsAiRelevant(videos) && !TitleMatches(v, AI_KEYWORDS) ==> !IsAiRelevant(videos + [v])
  {
    CountMatchingAppend(videos, v, AI_KEYWORDS);
  }

  /** At five videos the threshold sits between two and three matches. */
  lemma {:induction false} FiveVideoThreshold(videos: seq<VideoRecord>)
    requires |videos| == 5
    ensures IsAiRelevant(videos) <==> CountMatching(videos, AI_KEYWORDS) >= 3
  {
  }
}
