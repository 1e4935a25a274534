/** The driver `analyze_channel` (analyze_channel.py:220-269): derives the
    channel handle and the two page addresses from what the user typed,
    fetches both pages, and assembles the report from the extractors and
    scorers. The network is the parameter `fetch`, which gives the page at
    an address or `None` when fetching fails. */
module Analyzer {
  import opened Text
  import opened Wrappers
  import opened Numbers
  import opened Extraction
  import opened Metrics
  import opened Cadence
  import opened Relevance
  import opened Fit

  const YOUTUBE_PREFIX := "https://www.youtube.com/"

  /** How many recent videos the report considers. */
  const RECENT_VIDEOS := 5

  /** A channel given without a scheme is taken to be a path on YouTube. */
  function NormalizeUrl(channelUrl: string): (url: string)
    ensures StartsWith(channelUrl, "http") ==> url == channelUrl
    ensures !StartsWith(channelUrl, "http") ==> url == YOUTUBE_PREFIX + channelUrl
  {
    if StartsWith(channelUrl, "http") then channelUrl else YOUTUBE_PREFIX + channelUrl
  }

  /** The last path piece of the normalized address. */
  function ChannelHandle(channelUrl: string): (handle: string)
    ensures '/' !in handle
  {
    LastSegment(NormalizeUrl(channelUrl), '/')
  }

  /** The channel's main page. */
  function BaseUrl(channelUrl: string): string
  {
    YOUTUBE_PREFIX + ChannelHandle(channelUrl)
  }

  /** The channel's list of uploads. */
  function VideosUrl(channelUrl: string): string
  {
    BaseUrl(channelUrl) + "/videos"
  }

  /** The subscriber count as a number: the text read as a view count and
      truncated, 0 when no text was found or it is empty. */
  function SubscriberNumeric(subscribers: Option<string>): int
  {
    match subscribers
    case None => 0
    case Some(s) => if s == [] then 0 else Trunc(ParseViewCount(s + " views"))
  }

  /** The publish time of each video, in order. */
  function PublishedTimes(videos: seq<VideoRecord>): (times: seq<string>)
    ensures |times| == |videos|
    ensures forall i :: 0 <= i < |videos| ==> times[i] == videos[i].published
  {
    seq(|videos|, i requires 0 <= i < |videos| => videos[i].published)
  }

  /** The result dictionary of a successful run; the reasons are kept as
      a list (the source joins their texts with spaces). */
  datatype ChannelReport = ChannelReport(
    channelHandle: string,
    channelUrl: string,
    subscribers: Option<string>,
    subscriberNumeric: int,
    recentVideos: seq<VideoRecord>,
    averageViews: int,
    updateFrequency: Frequency,
    aiRelevant: bool,
    rating: Rating,
    reasons: seq<Reason>)

  /** `report` is what a run on the two fetched pages produces: every field
      is the corresponding extractor or scorer applied to the pages. */
  predicate IsReportOf(report: ChannelReport, channelUrl: string, mainHtml: string, videosHtml: string)
  {
    var videos := report.recentVideos;
    var fit := FitOf(videos, report.subscriberNumeric, report.averageViews);
    report.channelHandle == ChannelHandle(channelUrl)
    && report.channelUrl == BaseUrl(channelUrl)
    && report.subscribers == SubscriberText(mainHtml)
    && report.subscriberNumeric == SubscriberNumeric(report.subscribers)
    && IsZip(videos, ViewTexts(videosHtml), TitleTexts(videosHtml), TimeTexts(videosHtml), RECENT_VIDEOS)
    && report.averageViews == AverageViews(videos)
    && report.updateFrequency == FrequencyOf(Samples(PublishedTimes(videos)))
    && report.aiRelevant == IsAiRelevant(videos)
    && report.rating == fit.rating
    && report.reasons == fit.reasons
  }

  /** The number of videos the uploads page yields. */
  function VideoCount(videosHtml: string): nat
  {
    VideoLimit(RECENT_VIDEOS, |ViewTexts(videosHtml)|, |TitleTexts(videosHtml)|)
  }

  /** `analyze_channel`: fails when either page cannot be fetched or the
      uploads page yields no video, and otherwise reports on at most five
      videos. */
  method AnalyzeChannel(channelUrl: string, fetch: string -> Option<string>) returns (report: Option<ChannelReport>)
    ensures report.None? <==>
      fetch(BaseUrl(channelUrl)).None? || fetch(VideosUrl(channelUrl)).None?
      || VideoCount(fetch(VideosUrl(channelUrl)).value) == 0
    ensures report.Some? ==> 1 <= |report.value.recentVideos| <= RECENT_VIDEOS
    ensures report.Some? ==>
      IsReportOf(report.value, channelUrl, fetch(BaseUrl(channelUrl)).value, fetch(VideosUrl(channelUrl)).value)
  {
    var url := channelUrl;
    if !StartsWith(url, "http") {
      url := YOUTUBE_PREFIX + url;
    }
    var channelHandle := LastSegment(url, '/');
    var baseUrl := YOUTUBE_PREFIX + channelHandle;
    var videosUrl := baseUrl + "/videos";

    var mainPage := fetch(baseUrl);
    if mainPage.None? {
      return None;
    }
    var subscribers := ExtractSubscriberCount(mainPage.value);

    var videosPage := fetch(videosUrl);
    if videosPage.None? {
      return None;
    }
    var videos := ExtractVideos(videosPage.value, RECENT_VIDEOS);
    if videos == [] {
      return None;
    }

    var averageViews := AverageViews(videos);
    var frequency := DetermineUpdateFrequency(PublishedTimes(videos));
    var aiRelevant := CheckAiRelevance(videos);
    var subscriberNumeric := if subscribers.Some? && subscribers.value != [] then
      Trunc(ParseViewCount(subscribers.value + " views")) else 0;

    var fit := EvaluateFit(videos, subscriberNumeric, averageViews);
    report := Some(ChannelReport(channelHandle, baseUrl, subscribers, subscriberNumeric, videos,
                                 averageViews, frequency, aiRelevant, fit.rating, fit.reasons));
  }

  /** The piece after the last `/` of an address that ends in `/` and a
      slash-free piece is that piece. */
  lemma {:induction false} LastSegmentAfterSlash(p: string, h: string)
    requires '/' !in h
    ensures LastSegment(p + "/" + h, '/') == h
    decreases |h|
  {
    var s := p + "/" + h;
    if h == [] {
      assert s[|s| - 1] == '/';
    } else {
      var h' := h[..|h| - 1];
      assert s[..|s| - 1] == p + "/" + h';
      assert s[|s| - 1] == h[|h| - 1];
      LastSegmentAfterSlash(p, h');
      assert h' + [h[|h| - 1]] == h;
    }
  }

  /** A bare handle such as "@name" becomes that handle, and so does the
      full address of a channel page. */
  lemma {:induction false} HandleOfChannel(h: string)
    requires '/' !in h
    ensures !StartsWith(h, "http") ==> ChannelHandle(h) == h
    ensures ChannelHandle(YOUTUBE_PREFIX + h) == h
  {
    assert YOUTUBE_PREFIX == "https://www.youtube.com" + "/";
    LastSegmentAfterSlash("https://www.youtube.com", h);
    assert StartsWith(YOUTUBE_PREFIX + h, "http") by {
      assert (YOUTUBE_PREFIX + h)[..4] == YOUTUBE_PREFIX[..4];
    }
  }

  /** Feeding the derived main-page address back in derives the same
      handle and addresses: normalization is idempotent. */
  lemma {:induction false} BaseUrlIdempotent(channelUrl: string)
    ensures ChannelHandle(BaseUrl(channelUrl)) == ChannelHandle(channelUrl)
    ensures BaseUrl(BaseUrl(channelUrl)) == BaseUrl(channelUrl)
    ensures VideosUrl(BaseUrl(channelUrl)) == VideosUrl(channelUrl)
  {
    HandleOfChannel(ChannelHandle(channelUrl));
  }

  /** The generated addresses point at the channel's pages on YouTube. */
  lemma {:induction false} AddressesOnYouTube(channelUrl: string)
    ensures StartsWith(BaseUrl(channelUrl), YOUTUBE_PREFIX)
    ensures StartsWith(VideosUrl(channelUrl), YOUTUBE_PREFIX)
    ensures VideosUrl(channelUrl)[|YOUTUBE_PREFIX|..] == ChannelHandle(channelUrl) + "/videos"
  {
    PrefixedParts(YOUTUBE_PREFIX, ChannelHandle(channelUrl), "/videos");
  }

  lemma {:induction false} PrefixedParts(p: string, h: string, v: string)
    ensures StartsWith(p + h, p) && StartsWith(p + h + v, p)
    ensures (p + h + v)[|p|..] == h + v
  {
    assert (p + h)[..|p|] == p;
    assert (p + h + v)[..|p|] == p;
    assert p + h + v == p + (h + v);
  }

  /** A subscriber count written as digits and a magnitude letter ("12K",
      "3M") is read as the count times its magnitude. */
  lemma {:induction false} SubscriberNumericOfCount(n: nat, m: Magnitude)
    ensures SubscriberNumeric(Some(NatString(n) + m.Letter())) == n * m.Multiplier()
  {
    var s := NatString(n) + m.Letter();
    var k := n * m.Multiplier();
    assert s + " views" == RenderCount(n, m, ViewsWord);
    ParseRenderedCount(n, m, ViewsWord);
    TruncWhole(ParseViewCount(s + " views"), k);
  }

  lemma {:induction false} TruncWhole(x: real, k: int)
    requires x == k as real
    ensures Trunc(x) == k
  {
  }
}
