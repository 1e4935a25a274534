/** The regular expressions the extractor passes to `re.findall`
    (analyze_channel.py:27-29 and 41-43), written out as scanners.

    Two shapes occur:
    - `Quoted(prefix)`: a literal prefix, the capture `([^"]+)` and a closing
      quote (the four embedded-JSON patterns);
    - `CountThen(suffix)`: the capture `(\d+\.?\d*[KMB]?)` followed by a
      literal suffix (the two "N subscribers" patterns).

    Every piece of the `CountThen` capture is greedy, and the suffixes used
    begin with a space, which none of the pieces can consume, so giving back
    a character never helps: the match at a position is the maximal munch or
    nothing. `FindAll` is the left-to-right, non-overlapping scan of
    `re.findall`, which resumes after the end of each match. */
module Patterns {
  import opened Text
  import opened Wrappers

  datatype Pattern =
    | Quoted(prefix: string)
    | CountThen(suffix: string)

  const SUBSCRIBER_COUNT_TEXT := Quoted("\"subscriberCountText\":{\"simpleText\":\"")
  const SUBSCRIBERS_PLURAL := CountThen(" subscribers")
  const SUBSCRIBERS_SINGULAR := CountThen(" subscriber")
  const VIEW_COUNT_TEXT := Quoted("\"viewCountText\":{\"simpleText\":\"")
  const TITLE_TEXT := Quoted("\"title\":{\"runs\":[{\"text\":\"")
  const PUBLISHED_TIME_TEXT := Quoted("\"publishedTimeText\":{\"simpleText\":\"")

  /** A successful match at the start of the text: the captured group and
      the number of characters the whole match spans. */
  datatype Match = Match(group: string, length: nat)

  /** Length of the leading run of characters other than `"`: what `[^"]+`
      consumes greedily. */
  function QuoteFreeRun(s: string): (n: nat)
    ensures n <= |s| && '"' !in s[..n]
    ensures n < |s| ==> s[n] == '"'
    decreases |s|
  {
    if s != [] && s[0] != '"' then
      var n := 1 + QuoteFreeRun(s[1..]);
      assert s[..n] == [s[0]] + s[1..][..n - 1];
      n
    else 0
  }

  predicate IsMagnitude(c: char)
  {
    c == 'K' || c == 'M' || c == 'B'
  }

  /** The characters `\d+\.?\d*[KMB]?` can consume. */
  predicate IsCountChar(c: char)
  {
    IsDigit(c) || c == '.' || IsMagnitude(c)
  }

  /** The match of `p` anchored at the start of `s`, if any. */
  function MatchAt(p: Pattern, s: string): (m: Option<Match>)
    ensures m.Some? ==> 0 < m.value.length <= |s|
    ensures m.Some? && p.Quoted? ==>
      m.value.group != [] && '"' !in m.value.group
      && s[..m.value.length] == p.prefix + m.value.group + "\""
    ensures m.Some? && p.CountThen? ==>
      m.value.group != [] && (forall i :: 0 <= i < |m.value.group| ==> IsCountChar(m.value.group[i]))
      && s[..m.value.length] == m.value.group + p.suffix
  {
    match p
    case Quoted(prefix) => QuotedMatch(prefix, s)
    case CountThen(suffix) => CountMatch(suffix, s)
  }

  /** `prefix([^"]+)"` anchored at the start of `s`. */
  function QuotedMatch(prefix: string, s: string): (m: Option<Match>)
    ensures m.Some? ==> 0 < m.value.length <= |s|
    ensures m.Some? ==>
      m.value.group != [] && '"' !in m.value.group
      && s[..m.value.length] == prefix + m.value.group + "\""
  {
    if !StartsWith(s, prefix) then None
    else
      var rest := s[|prefix|..];
      var n := QuoteFreeRun(rest);
      if 0 < n < |rest| then
        assert s[..|prefix| + n + 1] == prefix + rest[..n] + "\"";
        Some(Match(rest[..n], |prefix| + n + 1))
      else None
  }

  /** `(\d+\.?\d*[KMB]?)suffix` anchored at the start of `s`. */
  function CountMatch(suffix: string, s: string): (m: Option<Match>)
    ensures m.Some? ==> 0 < m.value.length <= |s|
    ensures m.Some? ==>
      m.value.group != [] && (forall i :: 0 <= i < |m.value.group| ==> IsCountChar(m.value.group[i]))
      && s[..m.value.length] == m.value.group + suffix
  {
    var i := DigitRun(s);
    if i == 0 then None
    else
      var j := if i < |s| && s[i] == '.' then i + 1 else i;
      var k := j + DigitRun(s[j..]);
      var l := if k < |s| && IsMagnitude(s[k]) then k + 1 else k;
      if StartsWith(s[l..], suffix) then
        CountRunChars(s, i, j, k, l);
        assert s[..l + |suffix|] == s[..l] + suffix;
        Some(Match(s[..l], l + |suffix|))
      else None
  }

  /** The pieces of the count capture consist of count characters. */
  lemma {:induction false} CountRunChars(s: string, i: nat, j: nat, k: nat, l: nat)
    requires i == DigitRun(s) && i <= j <= |s|
    requires j == i || (j == i + 1 && s[i] == '.')
    requires k == j + DigitRun(s[j..])
    requires l == k || (l == k + 1 && k < |s| && IsMagnitude(s[k]))
    ensures l <= |s| && forall x :: 0 <= x < l ==> IsCountChar(s[..l][x])
  {
    assert forall x :: 0 <= x < i ==> s[x] == s[..i][x];
    assert forall x :: j <= x < k ==> s[x] == s[j..][..k - j][x - j];
  }

  /** `re.findall(p, s)`: the groups of the successive non-overlapping
      matches, leftmost first. */
  function FindAll(p: Pattern, s: string): seq<string>
    decreases |s|
  {
    match MatchAt(p, s)
    case Some(m) => [m.group] + FindAll(p, s[m.length..])
    case None => if s == [] then [] else FindAll(p, s[1..])
  }

  /** Every value a `Quoted` pattern extracts is non-empty and holds no quote. */
  lemma {:induction false} QuotedGroupsAreQuoteFree(prefix: string, s: string)
    ensures forall k :: 0 <= k < |FindAll(Quoted(prefix), s)| ==>
      FindAll(Quoted(prefix), s)[k] != [] && '"' !in FindAll(Quoted(prefix), s)[k]
    decreases |s|
  {
    match MatchAt(Quoted(prefix), s)
    case Some(m) => QuotedGroupsAreQuoteFree(prefix, s[m.length..]);
    case None => if s != [] { QuotedGroupsAreQuoteFree(prefix, s[1..]); }
  }

  /** Every value a `CountThen` pattern extracts is a non-empty run of
      digits, dots and magnitude letters; in particular it holds no space. */
  lemma {:induction false} CountGroupsAreCompact(suffix: string, s: string)
    ensures forall k :: 0 <= k < |FindAll(CountThen(suffix), s)| ==>
      var g := FindAll(CountThen(suffix), s)[k];
      g != [] && forall i :: 0 <= i < |g| ==> IsCountChar(g[i])
    decreases |s|
  {
    match MatchAt(CountThen(suffix), s)
    case Some(m) => CountGroupsAreCompact(suffix, s[m.length..]);
    case None => if s != [] { CountGroupsAreCompact(suffix, s[1..]); }
  }

  /** The page text in which each value of `vs` is embedded after `prefix`
      and closed by a quote. */
  function EmbedQuoted(prefix: string, vs: seq<string>): string
  {
    if vs == [] then [] else prefix + vs[0] + "\"" + EmbedQuoted(prefix, vs[1..])
  }

  /** Scanning a text built of embedded values gives back exactly those
      values, in order. */
  lemma {:induction false} QuotedRoundTrip(prefix: string, vs: seq<string>)
    requires forall k :: 0 <= k < |vs| ==> vs[k] != [] && '"' !in vs[k]
    ensures FindAll(Quoted(prefix), EmbedQuoted(prefix, vs)) == vs
  {
    if vs != [] {
      var v := vs[0];
      var rest := EmbedQuoted(prefix, vs[1..]);
      var s := EmbedQuoted(prefix, vs);
      assert s == prefix + (v + "\"" + rest);
      assert StartsWith(s, prefix);
      var after := s[|prefix|..];
      assert after == v + "\"" + rest;
      QuoteFreeRunOf(v, rest);
      assert after[..|v|] == v;
      assert MatchAt(Quoted(prefix), s) == Some(Match(v, |prefix| + |v| + 1));
      assert s[|prefix| + |v| + 1..] == rest;
      QuotedRoundTrip(prefix, vs[1..]);
    }
  }

  lemma {:induction false} QuoteFreeRunOf(v: string, rest: string)
    requires '"' !in v
    ensures QuoteFreeRun(v + "\"" + rest) == |v|
  {
    var s := v + "\"" + rest;
    var n := QuoteFreeRun(s);
    assert forall i :: 0 <= i < |v| ==> s[i] == v[i];
    assert s[|v|] == '"';
  }

  /** Whenever the " subscribers" pattern finds something, so does the
      " subscriber" pattern tried after it: the third fallback only ever
      decides the result when the second found nothing. */
  lemma {:induction false} PluralImpliesSingular(s: string)
    ensures FindAll(SUBSCRIBERS_PLURAL, s) != [] ==> FindAll(SUBSCRIBERS_SINGULAR, s) != []
    decreases |s|
  {
    if MatchAt(SUBSCRIBERS_PLURAL, s).Some? {
      var m := MatchAt(SUBSCRIBERS_PLURAL, s).value;
      var l := |m.group|;
      assert s[..l] == m.group;
      assert StartsWith(s[l..], " subscribers");
      assert s[l..][..11] == s[l..][..12][..11];
      assert StartsWith(s[l..], " subscriber");
      assert MatchAt(SUBSCRIBERS_SINGULAR, s).Some?;
    } else if MatchAt(SUBSCRIBERS_SINGULAR, s).None? && s != [] {
      PluralImpliesSingular(s[1..]);
    }
  }
}
