/** The keyword lists of the classifiers (analyze_channel.py:119-121 and
    142-145) and the per-title test `any(kw in title.lower() for kw in ...)`
    with the count of titles that pass it. */
module Keywords {
  import opened Text
  import opened Extraction

  const AI_KEYWORDS: seq<string> := ["ai", "artificial intelligence", "claude", "gpt", "chatgpt",
    "machine learning", "deep learning", "neural", "automation",
    "grok", "luma", "midjourney", "stable diffusion"]

  const AI_TOOL_KEYWORDS: seq<string> := ["ai", "gpt", "claude", "automation", "tool", "chatgpt", "midjourney", "stable diffusion"]
  const MONEY_KEYWORDS: seq<string> := ["make money", "side hustle", "passive income", "earn", "dollar", "monetize", "赚钱", "副业"]
  const LEARNING_KEYWORDS: seq<string> := ["tutorial", "how to", "guide", "learn", "course", "tip", "productivity", "efficiency", "教程", "学习", "效率"]
  const DEV_KEYWORDS: seq<string> := ["code", "coding", "programming", "developer", "software", "github", "api", "backend", "frontend"]

  /** `any(kw in text for kw in keywords)`. */
  function MatchesAny(text: string, keywords: seq<string>): (r: bool)
    ensures r <==> exists i :: 0 <= i < |keywords| && Contains(text, keywords[i])
  {
    if keywords == [] then false
    else
      var r := Contains(text, keywords[0]) || MatchesAny(text, keywords[1..]);
      assert forall i :: 1 <= i < |keywords| ==> keywords[i] == keywords[1..][i - 1];
      r
  }

  /** The lower-cased title of `v` contains one of `keywords`. */
  predicate TitleMatches(v: VideoRecord, keywords: seq<string>)
  {
    MatchesAny(Lower(v.title), keywords)
  }

  /** How many videos have a title that matches: each video adds at most
      one, however many of the keywords it contains. */
  function CountMatching(videos: seq<VideoRecord>, keywords: seq<string>): (c: nat)
    ensures c <= |videos|
  {
    if videos == [] then 0
    else
      CountMatching(videos[..|videos| - 1], keywords)
      + (if TitleMatches(videos[|videos| - 1], keywords) then 1 else 0)
  }

  /** One more video adds one exactly when its title matches. */
  lemma {:induction false} CountMatchingAppend(videos: seq<VideoRecord>, v: VideoRecord, keywords: seq<string>)
    ensures CountMatching(videos + [v], keywords)
      == CountMatching(videos, keywords) + (if TitleMatches(v, keywords) then 1 else 0)
  {
    assert (videos + [v])[..|videos|] == videos;
  }

  /** The count reaches the number of videos exactly when every title
      matches, and is zero exactly when none does. */
  lemma {:induction false} CountMatchingExtremes(videos: seq<VideoRecord>, keywords: seq<string>)
    ensures CountMatching(videos, keywords) == |videos| <==>
      forall i :: 0 <= i < |videos| ==> TitleMatches(videos[i], keywords)
    ensures CountMatching(videos, keywords) == 0 <==>
      forall i :: 0 <= i < |videos| ==> !TitleMatches(videos[i], keywords)
  {
    if videos != [] {
      var init := videos[..|videos| - 1];
      CountMatchingExtremes(init, keywords);
      assert forall i :: 0 <= i < |init| ==> init[i] == videos[i];
    }
  }
}
