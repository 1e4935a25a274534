# YouTube channel analyzer, modelled in Dafny

`analyze_channel.py` looks at a YouTube channel and rates it as a
collaboration partner. It works in six steps:

1. It fetches the channel's main page and its uploads page.
2. It pulls the subscriber count and the five most recent videos (title,
   view text, publish time) out of the JSON embedded in those pages, using
   fixed regular expressions.
3. It turns view texts such as "1.5K views" into numbers.
4. It derives three metrics from them: the average view count, an upload
   cadence bucket, and whether the titles are about AI.
5. It rates the channel in four tiers, from keyword categories counted
   over the titles.
6. It lists the reasons for that rating.

This project models that pipeline, without the network, the printing and
the report text. Each piece has the form of the code it models:

- **Loops become methods with `for`/`while` loops** proved against a
  specification function: subscriber-pattern fallback, video zipping,
  cadence sampling, relevance counting, category counting and reason
  building.
- **Pure string and number code becomes functions**: number parsing,
  averaging, and URL derivation.
- **Lemmas** state the properties the program promises or shows.

Modules, in dependency order:

| module | file | models |
|---|---|---|
| `Wrappers` | wrappers.dfy | `Option`, for `None` results |
| `Text` | text.dfy | `in`, `str.replace`, `str.strip`, ASCII `str.lower`, `split('/')[-1]`, decimal digits |
| `Patterns` | patterns.dfy | the six `re.findall` patterns, as scanners |
| `Numbers` | numbers.dfy | `parse_view_count`, `float()` on decimal literals, `int()` truncation |
| `NumberExamples` | number_examples.dfy | worked `parse_view_count` examples |
| `Extraction` | extraction.dfy | `extract_subscriber_count`, `extract_videos` |
| `Keywords` | keywords.dfy | the keyword tables and the "any keyword in the lower-cased title" test |
| `Metrics` | metrics.dfy | `calculate_average_views` |
| `Cadence` | cadence.dfy | `determine_update_frequency` |
| `PublishTimes` | publish_times.dfy | how the cadence rules read "N unit(s) ago" texts |
| `CadenceExamples` | cadence_examples.dfy | worked cadence examples |
| `Relevance` | relevance.dfy | `check_ai_relevance` |
| `Fit` | fit.dfy | `evaluate_happycapy_fit` |
| `Analyzer` | analyzer.dfy | `analyze_channel`: URL and handle derivation, result assembly |

Notes on semantics:

- **Magnitude letters.** The code tests K, then M, then B
  (analyze_channel.py:61-69). The first letter present sets the
  multiplier, and only that letter is deleted. A text holding two
  letters, such as "1KM", therefore parses as 0
  (`Numbers.TwoMagnitudesYieldZero`).
- **Rule order in the cadence estimator.** The "1 week" and "1 month"
  rules are plain substring tests, and they run before or instead of the
  week and month counts. So "11 weeks ago" and "21 weeks ago" read as 7
  days, "11 months ago" reads as 30, and "2 months ago" gives no sample.
  The model keeps this behaviour and proves it (`PublishTimes.WeeksRule`,
  `PublishTimes.MonthsRule`).
- **Exact arithmetic.** Numbers are exact rationals (`real`), not
  floats. Each float threshold is stated in integer form:
  - relevance: `count >= 0.6 * len` becomes `5 * count >= 3 * len`;
  - cadence: `mean <= k` becomes `sum <= k * n`;
  - engagement: `rate >= 70` becomes `10 * avg >= 7 * subs`;
  - viral potential: `max > 3 * mean` becomes `max * n > 3 * sum`.

  The lemmas prove each form equal to the rational comparison the code
  makes.
- **Fetching.** The network is the parameter `fetch` of
  `Analyzer.AnalyzeChannel`. It returns the page at an address, or `None`
  when the fetch fails. In the code a failed fetch raises. The handler at
  analyze_channel.py:271-275 catches it and the run returns `None`.

## Model

| member | source | states |
|---|---|---|
| Text.Contains | analyze_channel.py:126 | `sub in s` holds exactly when some window of `s` equals `sub` |
| Text.ContainsChars | analyze_channel.py:90 | every character of a contained substring occurs in the text |
| Text.ReplaceAllSkips | analyze_channel.py:35 | `replace` leaves a prefix untouched when no character of it can start the target |
| Text.RemoveCharSpec | analyze_channel.py:63 | `replace(c, '')` leaves no `c` and keeps every other character of the text |
| Text.TrimStart | analyze_channel.py:58 | the result is a suffix of the text, every dropped character is white space, and it does not begin with white space |
| Text.TrimEnd | analyze_channel.py:58 | the result is a prefix of the text, every dropped character is white space, and it does not end with white space |
| Text.Strip | analyze_channel.py:35 | `strip()` returns a slice outside which there is only white space, and the slice neither begins nor ends with white space |
| Text.TrimmedSlice | analyze_channel.py:35 | trimming the end and then the start leaves exactly such a slice |
| Text.StripKeeps | analyze_channel.py:58 | `strip()` keeps every character that is not white space |
| Text.StripUnchanged | analyze_channel.py:35 | a text with no white space at either end is its own strip |
| Text.LastSegment | analyze_channel.py:227 | `split('/')[-1]` is the longest slash-free suffix: a suffix without `/`, preceded by `/` when shorter than the text |
| Text.DigitRun | analyze_channel.py:87 | the greedy `\d+` run: all digits, followed by a non-digit or the end |
| Text.DigitRunOf | analyze_channel.py:87 | the digit run of digits followed by a non-digit is those digits |
| Text.SpaceRun | analyze_channel.py:87 | the greedy `\s+` run: all white space, followed by a non-space or the end |
| Text.NatString | analyze_channel.py:89 | a written count is a non-empty digit string |
| Text.NatStringValue | analyze_channel.py:89 | `int()` of a written count gives the count back |
| Patterns.QuoteFreeRun | analyze_channel.py:41 | the greedy `[^"]+` run: quote-free, followed by a quote or the end |
| Patterns.MatchAt | analyze_channel.py:27-29 | an anchored match of a quoted pattern spans prefix, a non-empty quote-free group and a quote; an anchored match of a count pattern spans a non-empty group of digits, dot and magnitude letter, then the suffix |
| Patterns.QuotedMatch | analyze_channel.py:41-43 | an anchored `prefix([^"]+)"` match spans exactly prefix, group and closing quote |
| Patterns.CountMatch | analyze_channel.py:28-29 | an anchored `(\d+\.?\d*[KMB]?) suffix` match spans exactly the count group and the suffix |
| Patterns.CountRunChars | analyze_channel.py:28 | the pieces `\d+`, `\.?`, `\d*`, `[KMB]?` consume only count characters |
| Patterns.QuotedGroupsAreQuoteFree | analyze_channel.py:41-43 | every value a quoted pattern extracts is non-empty and holds no quote |
| Patterns.CountGroupsAreCompact | analyze_channel.py:28-29 | every value a count pattern extracts is a non-empty run of digits, dots and K/M/B, so it holds no space |
| Patterns.QuoteFreeRunOf | analyze_channel.py:41 | the quote-free run of a quote-free value followed by a quote is that value |
| Patterns.QuotedRoundTrip | analyze_channel.py:41-43 | scanning a text built by embedding quote-free values after the prefix gives back exactly those values in order |
| Patterns.PluralImpliesSingular | analyze_channel.py:28-34 | whenever " subscribers" matches, " subscriber" matches too, so the third pattern only decides when the second finds nothing |
| Numbers.Pow10 | analyze_channel.py:72 | powers of ten are positive |
| Numbers.DecimalLiteralChars | analyze_channel.py:72 | a text `float()` accepts consists of digits, `.` and signs only |
| Numbers.ToFloatRejects | analyze_channel.py:71-74 | a text holding a non-space character that cannot occur in a numeral does not convert |
| Numbers.TwoMagnitudesYieldZero | analyze_channel.py:60-74 | only the first letter of K, M, B is deleted, so a cleaned text holding two different letters does not convert and parses as 0 |
| Numbers.SecondLetterRemains | analyze_channel.py:60-72 | after the first letter is deleted, the second letter is still there and `float()` fails |
| Numbers.ParseRenderedCount | analyze_channel.py:56-74 | a count written as digits, an optional K/M/B and an optional " view"/" views" parses to the count times the letter's multiplier |
| Numbers.ParseRenderedCore | analyze_channel.py:60-72 | the digits and letter convert to the count times the multiplier |
| Numbers.CleanRenderedCount | analyze_channel.py:58 | the cleaning step removes exactly the unit word of a written count |
| Numbers.RenderedCore | analyze_channel.py:58 | digits and a letter contain no space, comma or white space at either end |
| Numbers.CleanRendered | analyze_channel.py:58 | removing " views", " view" and "," and stripping leaves such a core unchanged |
| Numbers.NumeralOfRendered | analyze_channel.py:60-69 | the letter of a written count selects its multiplier and its deletion leaves the digits |
| Numbers.DigitsLiteral | analyze_channel.py:72 | a digit string converts to its value |
| Numbers.ToFloatOfDigits | analyze_channel.py:72 | `float()` of a written count is that count |
| Numbers.Trunc | analyze_channel.py:80 | `int()` truncates toward zero: the result lies within one of the value, on the side of zero |
| NumberExamples.ParsesGarbageAsZero | analyze_channel.py:71-74 | "garbage" parses as 0 |
| NumberExamples.ParsesTwoMillion | analyze_channel.py:64-72 | "2M" parses as 2,000,000 |
| NumberExamples.ParsesOneAndAHalfThousand | analyze_channel.py:61-72 | "1.5K" parses as 1500 |
| NumberExamples.ParsesThousandsSeparator | analyze_channel.py:58-72 | "10,234 views" parses as 10234 |
| NumberExamples.ParsesTwoLettersAsZero | analyze_channel.py:61-74 | "1KM" parses as 0 |
| NumberExamples.CleanOf | analyze_channel.py:58 | cleaning leaves "garbage", "1.5K" and "1KM" unchanged |
| NumberExamples.LetterFreeNumeral | analyze_channel.py:60-69 | "garbage" holds no magnitude letter |
| NumberExamples.GarbageRejected | analyze_channel.py:71-74 | "garbage" does not convert |
| NumberExamples.ThousandsNumeral | analyze_channel.py:61-63 | "1.5K" selects 1000 and leaves "1.5" |
| NumberExamples.OneAndAHalf | analyze_channel.py:72 | "1.5" converts to 1.5 |
| NumberExamples.SeparatedCountCleaned | analyze_channel.py:58 | "10,234 views" cleans to "10234" |
| NumberExamples.UnitWordRemoved | analyze_channel.py:58 | removing " views" and " view" from "10,234 views" leaves "10,234" |
| NumberExamples.SeparatorRemoved | analyze_channel.py:58 | removing "," from "10,234" leaves "10234" |
| NumberExamples.SeparatedCountValue | analyze_channel.py:72 | "10234" converts to 10234 |
| Extraction.FirstNonEmpty | analyze_channel.py:32-34 | the position of the first non-empty match list: every list before it is empty |
| Extraction.FirstMatch | analyze_channel.py:32-36 | the fallback gives `None` exactly when every match list is empty |
| Extraction.MatchLists | analyze_channel.py:26-33 | the match list of each subscriber pattern, in the order tried |
| Extraction.ExtractSubscriberCount | analyze_channel.py:24-36 | the loop returns the cleaned first match of the first pattern that finds anything, and `None` exactly when no pattern finds anything |
| Extraction.CountMatchUnchanged | analyze_channel.py:35 | a count the second or third pattern finds passes through the removals and the strip unchanged |
| Extraction.CountPatternFallback | analyze_channel.py:27-35 | when the embedded-JSON pattern finds nothing and " subscribers" does, the result is the first count found, exactly as written |
| Extraction.ExtractVideos | analyze_channel.py:39-53 | the result has `min(count, #views, #titles)` records (none for `count <= 0`); record `i` has the `i`-th title and view text, and the `i`-th publish time or "Unknown" |
| Extraction.RecordFieldsAreQuoteFree | analyze_channel.py:41-49 | every title and view text of a record is non-empty and holds no quote |
| Keywords.MatchesAny | analyze_channel.py:126 | `any(kw in text for kw in keywords)` holds exactly when some keyword is contained |
| Keywords.CountMatching | analyze_channel.py:123-127 | the number of titles that match is at most the number of videos |
| Keywords.CountMatchingAppend | analyze_channel.py:124-127 | one more video adds one exactly when its title matches |
| Keywords.CountMatchingExtremes | analyze_channel.py:123-127 | the count equals the number of videos exactly when every title matches, and is 0 exactly when no title does |
| Metrics.ViewValues | analyze_channel.py:79 | the parsed view count of each video, in order |
| Metrics.AverageViews | analyze_channel.py:77-80 | 0 for no videos; otherwise the mean of the parsed counts truncated toward zero, stated without division |
| Metrics.MeanOf | analyze_channel.py:80 | `int(total / n)` satisfies the truncated-mean bounds |
| Metrics.MeanBounds | analyze_channel.py:80 | the truncated quotient times `n` brackets the total |
| Metrics.SumOfIdentical | analyze_channel.py:79 | `n` equal values sum to `n` times the value |
| Metrics.MeanOfMultiple | analyze_channel.py:80 | the mean of a total that is `n` times a whole number is that number |
| Metrics.MeanOfIdentical | analyze_channel.py:79-80 | the mean of equal whole values is that value |
| Metrics.AverageOfUniformCounts | analyze_channel.py:77-80 | videos that all show the same written count average to that count times its magnitude |
| Cadence.SearchNeedsUnit | analyze_channel.py:87-95 | a text lacking a letter of the unit never matches the "N unit(s) ago" search |
| Cadence.Samples | analyze_channel.py:85-98 | there are at most as many samples as publish times, each sample is the day count of some publish time, and there are as many as publish times exactly when every time parses |
| Cadence.Recent | analyze_channel.py:104 | `days[:3]` is the first `min(3, len)` samples |
| Cadence.MeanAtMost | analyze_channel.py:105-111 | comparing the rational mean of two or three samples with a bound equals comparing the sum with the bound times the count |
| Cadence.DetermineUpdateFrequency | analyze_channel.py:83-114 | the loop collects the samples of the rule chain, in order, and returns the bucket of the mean of the first three, "Unknown" below two samples |
| Cadence.FewTimesUnknown | analyze_channel.py:100-101 | fewer than two publish times give "Unknown" |
| Cadence.SamplesInOrder | analyze_channel.py:86-98 | when every time parses, sample `i` is the day count of time `i` |
| Cadence.SamplesAppend | analyze_channel.py:86-98 | one more time adds its sample, if any, at the end |
| Cadence.FrequencyUsesFirstThree | analyze_channel.py:104 | samples after the third never change the bucket |
| Cadence.SumNatAtMost | analyze_channel.py:105 | samples bounded above by `hi` sum to at most `hi` times their number |
| Cadence.SumNatAtLeast | analyze_channel.py:105 | samples bounded below by `lo` sum to at least `lo` times their number |
| Cadence.FrequencyExtremes | analyze_channel.py:104-114 | gaps of at most 3 days give "3天/条"; first gaps all above 14 days give "14天+/条" |
| PublishTimes.RenderLayout | analyze_channel.py:87 | a written time is digits, a space, then no digit |
| PublishTimes.AgoAtRendered | analyze_channel.py:87-95 | the "N unit(s) ago" search reads the count of a written time back |
| PublishTimes.AgoAtOf | analyze_channel.py:87 | the anchored match of digits, a space, the unit, an optional "s" and " ago" yields the digits' value |
| PublishTimes.AgoAtFromParts | analyze_channel.py:87 | the anchored match succeeds with the digit group when each piece is present |
| PublishTimes.AgoSuffix | analyze_channel.py:87 | "s ago" and " ago" satisfy `s?\s+ago` |
| PublishTimes.SpaceRunOne | analyze_channel.py:87 | one space before a non-space is a white-space run of length 1 |
| PublishTimes.LetterAbsent | analyze_channel.py:87-98 | a letter of neither the unit nor " sago" does not occur in a written time |
| PublishTimes.MissingLetter | analyze_channel.py:90 | a text lacking a character of `sub` does not contain `sub` |
| PublishTimes.NoEarlierRule | analyze_channel.py:87-91 | for a unit without 'u', 'i' or 'd', neither the day rule nor the hour/minute rule fires |
| PublishTimes.OneUnitOccurs | analyze_channel.py:92-97 | "1 unit" occurs in a written time exactly when the count's last digit is 1 |
| PublishTimes.OneUnitPosition | analyze_channel.py:92-97 | an occurrence of "1 unit" sits at the last digit of the count |
| PublishTimes.NatStringLast | analyze_channel.py:92 | the last digit written is the count modulo 10 |
| PublishTimes.DaysRoundTrip | analyze_channel.py:87-89 | "N day(s) ago" gives N |
| PublishTimes.RecentRule | analyze_channel.py:90-91 | "N hour(s) ago" and "N minute(s) ago" give 0 |
| PublishTimes.UnitWords | analyze_channel.py:92-98 | the letters of "week" and "month" that the rules depend on |
| PublishTimes.WeeksRule | analyze_channel.py:92-96 | "N week(s) ago" gives 7N, except 7 when N ends in 1 |
| PublishTimes.OneWeekRule | analyze_channel.py:92-93 | a week count ending in 1 gives 7 |
| PublishTimes.ManyWeeksRule | analyze_channel.py:94-96 | any other week count gives 7N |
| PublishTimes.MonthsRule | analyze_channel.py:97-98 | "N month(s) ago" gives 30 when N ends in 1, and no sample otherwise |
| PublishTimes.NoWeekRule | analyze_channel.py:87-96 | no rule before the "1 month" rule matches a month count |
| PublishTimes.OneMonthRule | analyze_channel.py:97-98 | a month count ending in 1 gives 30 |
| PublishTimes.ManyMonthsRule | analyze_channel.py:86-98 | any other month count gives no sample |
| CadenceExamples.ElevenWeeksReadAsOneWeek | analyze_channel.py:92-93 | "11 weeks ago" gives 7 |
| CadenceExamples.ThreeWeeks | analyze_channel.py:94-96 | "3 weeks ago" gives 21 |
| CadenceExamples.PlaceholderHasNoSample | analyze_channel.py:86-98 | "Unknown" gives no sample |
| CadenceExamples.TwoAndThreeDays | analyze_channel.py:83-108 | ["2 days ago", "3 days ago"] give "3天/条" |
| CadenceExamples.FastLabel | analyze_channel.py:104-108 | samples [2, 3] give "3天/条" |
| CadenceExamples.DaysAgo | analyze_channel.py:87-89 | "2 days ago" gives 2 and "3 days ago" gives 3 |
| CadenceExamples.TwoSamples | analyze_channel.py:86-98 | two parsing times give their two samples in order |
| CadenceExamples.OneSample | analyze_channel.py:86-98 | one parsing time gives its sample |
| Relevance.CheckAiRelevance | analyze_channel.py:117-129 | the loop counts the titles matching an AI keyword and holds exactly when `5 * count >= 3 * len` |
| Relevance.EmptyIsRelevant | analyze_channel.py:129 | the empty list is relevant |
| Relevance.RelevanceExtremes | analyze_channel.py:123-129 | all titles matching make the list relevant; a non-empty list with no match is not relevant |
| Relevance.RelevanceMonotone | analyze_channel.py:123-129 | a matching video keeps a relevant list relevant, and a non-matching one keeps a non-relevant list non-relevant |
| Relevance.FiveVideoThreshold | analyze_channel.py:129 | with five videos, relevance means at least three matches |
| Fit.ScoresOf | analyze_channel.py:155-165 | every category counter lies between 0 and the number of videos |
| Fit.Max | analyze_channel.py:209 | `max` is at least every value and equals one of them |
| Fit.RelatedReasons | analyze_channel.py:179-192 | the reason lists of the two middle tiers are the same |
| Fit.RateScores | analyze_channel.py:167-195 | the first tier whose rule holds, and that tier's category reasons |
| Fit.AddEngagement | analyze_channel.py:197-203 | appends the engagement reasons and nothing else |
| Fit.AddViral | analyze_channel.py:205-211 | appends the viral reasons and nothing else |
| Fit.EvaluateFit | analyze_channel.py:132-217 | the counters, the tier they select, and the category, engagement and viral reasons in that order |
| Fit.CountCategories | analyze_channel.py:147-165 | the loop's counters are the per-category counts of matching titles |
| Fit.ScoreTitle | analyze_channel.py:156-165 | one title adds one to each category it matches, and at most one per category |
| Fit.ScoresAppend | analyze_channel.py:155-165 | one more video adds one to a counter exactly when its title matches that category |
| Fit.RatingLowIff | analyze_channel.py:172-195 | the lowest tier occurs exactly when there is at most one match in all |
| Fit.RatingMonotone | analyze_channel.py:172-195 | raising counters never lowers the tier |
| Fit.TierExamples | analyze_channel.py:172-192 | counters {2,2,2,0} give 高-hpcp with three category reasons; {1,1,0,0} give 中-hpcp with two |
| Fit.CategoryReasonsNonEmpty | analyze_channel.py:172-195 | every tier has at least one category reason |
| Fit.StrongReasonsNameCategories | analyze_channel.py:172-178 | the top tier names exactly the categories with two or more matches |
| Fit.RelatedReasonsNameCategories | analyze_channel.py:179-192 | the middle tiers name exactly the categories with one or more matches |
| Fit.QuotientAtLeast | analyze_channel.py:199-202 | a quotient reaches a bound exactly when the dividend reaches the bound times the divisor |
| Fit.EngagementIff | analyze_channel.py:197-203 | at most one engagement reason, present exactly when subscribers > 0 and `2 * avg >= subs`, and the high form exactly when `10 * avg >= 7 * subs` |
| Fit.ViralIff | analyze_channel.py:205-211 | at most one viral reason, present exactly when `max * n > 3 * sum`, carrying the truncated maximum |
| Fit.ExceedsTriple | analyze_channel.py:208-210 | `max > 3 * (sum / n)` exactly when `max * n > 3 * sum` |
| Fit.SumNonNegative | analyze_channel.py:208 | non-negative counts have a non-negative sum |
| Fit.MaxAtMostSum | analyze_channel.py:208-209 | with non-negative counts the maximum is at most the sum |
| Fit.NoViralInThreeOrFewer | analyze_channel.py:205-211 | with at most three videos and non-negative counts no viral reason is given |
| Fit.NoCategoryMatchIn | analyze_channel.py:193-211 | the "no match" reason appears exactly in the lowest tier |
| Fit.NoCategoryMatchIff | analyze_channel.py:132-217 | in the full result, the "no match" reason appears exactly when the rating is the lowest tier |
| Fit.MetricReasonsAreNotCategories | analyze_channel.py:197-211 | engagement and viral reasons are never the "no match" reason |
| Fit.NoMatchingTitlesIsLow | analyze_channel.py:155-195 | titles matching no category give the lowest tier with only the "no match" reason |
| Fit.NoneMatch | analyze_channel.py:155-165 | no title matching gives a zero counter |
| Fit.AllMatch | analyze_channel.py:155-165 | every title matching gives a counter equal to the number of videos |
| Fit.AllCategoriesIsHigh | analyze_channel.py:155-178 | two or more titles each matching every category give the top tier with all four strong reasons |
| Analyzer.NormalizeUrl | analyze_channel.py:224-225 | an address starting with "http" is kept; anything else gets "https://www.youtube.com/" in front |
| Analyzer.ChannelHandle | analyze_channel.py:227 | the handle holds no `/` |
| Analyzer.PublishedTimes | analyze_channel.py:249 | the publish time of each video, in order |
| Analyzer.AnalyzeChannel | analyze_channel.py:220-269 | `None` exactly when a fetch fails or no video is extracted; otherwise one to five videos and every report field equal to its extractor or scorer applied to the fetched pages |
| Analyzer.LastSegmentAfterSlash | analyze_channel.py:227 | the last piece of `p/h`, for a slash-free `h`, is `h` |
| Analyzer.HandleOfChannel | analyze_channel.py:224-227 | a bare handle and the full channel address both give that handle |
| Analyzer.BaseUrlIdempotent | analyze_channel.py:224-229 | feeding the derived main-page address back in derives the same handle and addresses |
| Analyzer.AddressesOnYouTube | analyze_channel.py:228-229 | both addresses lie on YouTube, and the uploads address is the handle followed by "/videos" |
| Analyzer.SubscriberNumericOfCount | analyze_channel.py:257 | a subscriber count such as "12K" gives the count times its magnitude |
| Analyzer.TruncWhole | analyze_channel.py:257 | `int()` of a whole value is that value |

## Left out

- `fetch_page` (analyze_channel.py:13-21) does a network GET with
  headers and a timeout. It is the `fetch` parameter of
  `AnalyzeChannel`. Any failure, non-2xx status or decoding error is
  `None`.
- `format_report` (analyze_channel.py:278-321) is report templating.
  `main` (analyze_channel.py:324-340) handles arguments, printing and the
  JSON dump. Neither is modelled. The progress and error `print` calls
  and the traceback are also out.
- Exceptions other than a failed fetch are not modelled. In each case
  below the program raises, the handler at analyze_channel.py:271-275
  makes the run return `None`, and the model returns a report instead:
  - a view or subscriber text that `float()` reads as `nan` or `inf`
    ("nan", "inf", "infinity", with any sign), or a numeral long enough
    to overflow to `inf`: `int()` of the resulting value raises at
    analyze_channel.py:80 or 257 (the average at line 80 is computed
    before the viral check at line 211 could see such a value). The model has no such values and
    parses those texts as 0 or as their exact value;
  - day counts whose sum exceeds the largest float, for example a
    400-digit "N days ago": the true division at analyze_channel.py:105
    raises on overflow, while the model compares the exact sum;
  - a day or week numeral longer than Python's default limit of 4300
    digits for `int()` of a string (analyze_channel.py:89, 95). The
    model reads numerals of any length.
- Floating point: sums, quotients and products are exact rationals, so
  float rounding is not modelled. The integer forms of the relevance,
  engagement and viral thresholds agree with the float comparisons away
  from rounding.
- `float()` accepts only decimal literals here: an optional sign, digits
  and at most one `.`, with surrounding white space. Python also accepts
  `inf`, `nan`, exponents, underscores, and digits outside ASCII. Texts
  of those kinds parse as 0 in the model instead.
- `\d` and `str.lower()` are ASCII here. Python's `\d` also matches
  other Unicode decimal digits, and `lower()` folds non-ASCII capitals.
  White space (`\s`, `strip()`) follows Python's `str.isspace()` over the
  code points it lists.
- Python's regular-expression engine is replaced by scanners for the
  six fixed patterns and the two "ago" searches. Backtracking never
  changes their result (see patterns.dfy and cadence.dfy).
- Fit reasons are tagged values (`Fit.Reason`). The engagement and
  viral entries carry their numbers. The `{:.0f}%` and `{:,}` formatting
  and the `' '.join` into one string are not modelled. The report keeps
  the list.
- The `scores` dictionary of `evaluate_happycapy_fit` is the record
  `Fit.Scores`, and the report's cadence label is the enumeration
  `Cadence.Frequency` with its label text.
- `evaluate_happycapy_fit` reads `subscriber_numeric` and
  `average_views` from the result dictionary with `.get(…, 0)`. The model
  passes them as arguments, since the code always sets both
  (analyze_channel.py:257-259).
