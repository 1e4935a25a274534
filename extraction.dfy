/** The field extractor: `extract_subscriber_count` (analyze_channel.py:24-36)
    and `extract_videos` (analyze_channel.py:39-53). */
module Extraction {
  import opened Text
  import opened Wrappers
  import opened Patterns

  /** One recent video as the page lists it; every field is still raw text. */
  datatype VideoRecord = VideoRecord(title: string, views: string, published: string)

  /** The subscriber patterns, in the order they are tried. */
  const SUBSCRIBER_PATTERNS: seq<Pattern> := [SUBSCRIBER_COUNT_TEXT, SUBSCRIBERS_PLURAL, SUBSCRIBERS_SINGULAR]

  /** The placeholder for a video whose publish time was not found. */
  const UNKNOWN_TIME := "Unknown"

  /** The first match with " subscribers", then " subscriber", removed and
      the ends stripped. */
  function CleanSubscriberText(m: string): string
  {
    Strip(ReplaceAll(ReplaceAll(m, " subscribers", ""), " subscriber", ""))
  }

  /** The position of the first non-empty list; `|lists|` when every list
      is empty. */
  function FirstNonEmpty(lists: seq<seq<string>>): (k: nat)
    ensures k <= |lists|
    ensures forall j :: 0 <= j < k ==> lists[j] == []
    ensures k < |lists| ==> lists[k] != []
  {
    if lists == [] || lists[0] != [] then 0
    else
      var k := 1 + FirstNonEmpty(lists[1..]);
      assert forall j :: 1 <= j < k ==> lists[j] == lists[1..][j - 1];
      k
  }

  /** The ordered fallback: the first match of the first pattern that finds
      anything, cleaned; `None` when none does. */
  function FirstMatch(lists: seq<seq<string>>): (r: Option<string>)
    ensures r.None? <==> forall k :: 0 <= k < |lists| ==> lists[k] == []
  {
    var k := FirstNonEmpty(lists);
    if k == |lists| then None else Some(CleanSubscriberText(lists[k][0]))
  }

  /** The `findall` result of each pattern, in order. */
  function MatchLists(patterns: seq<Pattern>, html: string): (lists: seq<seq<string>>)
    ensures |lists| == |patterns|
    ensures forall k :: 0 <= k < |patterns| ==> lists[k] == FindAll(patterns[k], html)
  {
    seq(|patterns|, k requires 0 <= k < |patterns| => FindAll(patterns[k], html))
  }

  /** What `extract_subscriber_count` returns for a page. */
  function SubscriberText(html: string): Option<string>
  {
    FirstMatch(MatchLists(SUBSCRIBER_PATTERNS, html))
  }

  /** A count found by the second or third pattern comes back unchanged:
      it holds no space, so neither the removals nor the strip touch it. */
  lemma {:induction false} CountMatchUnchanged(g: string)
    requires g != [] && forall i :: 0 <= i < |g| ==> IsCountChar(g[i])
    ensures CleanSubscriberText(g) == g
  {
    assert forall i :: 0 <= i < |g| ==> g[i] != ' ';
    ReplaceAllSkips(g, [], " subscribers", "");
    ReplaceAllSkips(g, [], " subscriber", "");
    assert g + [] == g;
    StripUnchanged(g);
  }

  /** When the embedded-JSON pattern finds nothing, a count written next to
      the word "subscribers" is returned exactly as it appears. */
  lemma {:induction false} CountPatternFallback(html: string)
    requires FindAll(SUBSCRIBER_COUNT_TEXT, html) == []
    requires FindAll(SUBSCRIBERS_PLURAL, html) != []
    ensures SubscriberText(html) == Some(FindAll(SUBSCRIBERS_PLURAL, html)[0])
  {
    var lists := MatchLists(SUBSCRIBER_PATTERNS, html);
    assert FirstNonEmpty(lists) == 1;
    CountGroupsAreCompact(SUBSCRIBERS_PLURAL.suffix, html);
    CountMatchUnchanged(FindAll(SUBSCRIBERS_PLURAL, html)[0]);
  }

  /** `extract_subscriber_count`: tries the patterns in order and returns
      at the first that finds anything. */
  method ExtractSubscriberCount(html: string) returns (subscribers: Option<string>)
    ensures subscribers == SubscriberText(html)
    ensures subscribers.None? <==>
      forall k :: 0 <= k < |SUBSCRIBER_PATTERNS| ==> FindAll(SUBSCRIBER_PATTERNS[k], html) == []
  {
    ghost var lists := MatchLists(SUBSCRIBER_PATTERNS, html);
    var i := 0;
    while i < |SUBSCRIBER_PATTERNS|
      invariant 0 <= i <= |SUBSCRIBER_PATTERNS|
      invariant forall k :: 0 <= k < i ==> lists[k] == []
    {
      var matches := FindAll(SUBSCRIBER_PATTERNS[i], html);
      if matches != [] {
        assert FirstNonEmpty(lists) == i;
        return Some(CleanSubscriberText(matches[0]));
      }
      i := i + 1;
    }
    return None;
  }

  /** How many records `extract_videos` builds: `range(min(count, #views,
      #titles))`, which is empty for a negative count. */
  function VideoLimit(count: int, views: nat, titles: nat): nat
  {
    var m := if views < titles then views else titles;
    if count <= 0 then 0 else if count < m then count else m
  }

  /** `videos` is the positional zip of the three extracted sequences:
      record `i` takes the `i`-th title and view text, and the `i`-th
      publish time when there is one, "Unknown" otherwise. */
  predicate IsZip(videos: seq<VideoRecord>, views: seq<string>, titles: seq<string>, times: seq<string>, count: int)
  {
    |videos| == VideoLimit(count, |views|, |titles|)
    && forall i :: 0 <= i < |videos| ==>
      i < |views| && i < |titles|
      && videos[i] == VideoRecord(titles[i], views[i], if i < |times| then times[i] else UNKNOWN_TIME)
  }

  /** The three field sequences of a videos page. */
  function ViewTexts(html: string): seq<string> { FindAll(VIEW_COUNT_TEXT, html) }
  function TitleTexts(html: string): seq<string> { FindAll(TITLE_TEXT, html) }
  function TimeTexts(html: string): seq<string> { FindAll(PUBLISHED_TIME_TEXT, html) }

  /** `extract_videos`: zips the independently extracted titles, view texts
      and publish times by position. */
  method ExtractVideos(html: string, count: int) returns (videos: seq<VideoRecord>)
    ensures IsZip(videos, ViewTexts(html), TitleTexts(html), TimeTexts(html), count)
    ensures |videos| <= (if count < 0 then 0 else count)
  {
    var views := ViewTexts(html);
    var titles := TitleTexts(html);
    var times := TimeTexts(html);
    var n := VideoLimit(count, |views|, |titles|);
    videos := [];
    for i := 0 to n
      invariant |videos| == i
      invariant forall j :: 0 <= j < i ==>
        videos[j] == VideoRecord(titles[j], views[j], if j < |times| then times[j] else UNKNOWN_TIME)
    {
      videos := videos + [VideoRecord(titles[i], views[i], if i < |times| then times[i] else UNKNOWN_TIME)];
    }
  }

  /** Every title and view text of a record is a value the `([^"]+)`
      capture can produce: non-empty and free of quotes. */
  lemma {:induction false} RecordFieldsAreQuoteFree(html: string, videos: seq<VideoRecord>, count: int)
    requires IsZip(videos, ViewTexts(html), TitleTexts(html), TimeTexts(html), count)
    ensures forall i :: 0 <= i < |videos| ==>
      videos[i].title != [] && '"' !in videos[i].title && videos[i].views != [] && '"' !in videos[i].views
  {
    QuotedGroupsAreQuoteFree(VIEW_COUNT_TEXT.prefix, html);
    QuotedGroupsAreQuoteFree(TITLE_TEXT.prefix, html);
  }
}
