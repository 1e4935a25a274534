/** The string operations the analyzer applies: substring tests (`in`),
    `str.replace`, `str.strip`, `str.lower`, `str.startswith`, the last
    piece of `str.split('/')`, and decimal digits. */
module Text {

  /** The characters for which Python's `str.isspace()` holds (and which
      `str.strip()` and the regex class `\s` therefore treat as white space). */
  predicate IsSpace(c: char)
  {
    ('\t' <= c <= '\r') || ('\U{1C}' <= c <= ' ') || c == '\U{85}' || c == '\U{A0}'
    || c == '\U{1680}' || ('\U{2000}' <= c <= '\U{200A}') || c == '\U{2028}' || c == '\U{2029}'
    || c == '\U{202F}' || c == '\U{205F}' || c == '\U{3000}'
  }

  /** An ASCII decimal digit, the class the regex `\d` is taken to be. */
  predicate IsDigit(c: char)
  {
    '0' <= c <= '9'
  }

  predicate AllDigits(s: string)
  {
    forall i :: 0 <= i < |s| ==> IsDigit(s[i])
  }

  predicate StartsWith(s: string, prefix: string)
  {
    |prefix| <= |s| && s[..|prefix|] == prefix
  }

  /** `sub` occurs in `s` starting at index `i`. */
  predicate OccursAt(s: string, sub: string, i: nat)
  {
    i + |sub| <= |s| && s[i..i + |sub|] == sub
  }

  /** `sub in s`: some window of `s` equals `sub`. */
  function Contains(s: string, sub: string): (r: bool)
    ensures r <==> exists i: nat :: OccursAt(s, sub, i)
    decreases |s|
  {
    if StartsWith(s, sub) then
      assert OccursAt(s, sub, 0);
      true
    else if s == [] then
      assert forall i: nat :: !OccursAt(s, sub, i);
      false
    else
      var r := Contains(s[1..], sub);
      assert forall i: nat :: OccursAt(s[1..], sub, i) <==> OccursAt(s, sub, i + 1) by {
        forall i: nat ensures OccursAt(s[1..], sub, i) <==> OccursAt(s, sub, i + 1) {
          if i + |sub| <= |s| - 1 {
            assert s[1..][i..i + |sub|] == s[i + 1..i + 1 + |sub|];
          }
        }
      }
      assert !OccursAt(s, sub, 0);
      assert (exists i: nat :: OccursAt(s, sub, i)) ==> r by {
        if exists i: nat :: OccursAt(s, sub, i) {
          var i: nat :| OccursAt(s, sub, i);
          assert i != 0;
          assert OccursAt(s[1..], sub, i - 1);
        }
      }
      r
  }

  /** Every character of a substring occurs in the text. */
  lemma {:induction false} ContainsChars(s: string, sub: string, k: nat)
    requires Contains(s, sub) && k < |sub|
    ensures sub[k] in s
  {
    var i: nat :| OccursAt(s, sub, i);
    assert s[i + k] == s[i..i + |sub|][k];
  }

  /** Python's `s.replace(target, replacement)`: every non-overlapping
      occurrence of `target`, scanning left to right, is replaced. */
  function ReplaceAll(s: string, target: string, replacement: string): (r: string)
    requires target != []
    decreases |s|
  {
    if s == [] then []
    else if StartsWith(s, target) then replacement + ReplaceAll(s[|target|..], target, replacement)
    else [s[0]] + ReplaceAll(s[1..], target, replacement)
  }

  /** A prefix that holds no character able to start `target` passes
      through `ReplaceAll` untouched. */
  lemma {:induction false} ReplaceAllSkips(s: string, t: string, target: string, replacement: string)
    requires target != []
    requires forall i :: 0 <= i < |s| ==> s[i] != target[0]
    ensures ReplaceAll(s + t, target, replacement) == s + ReplaceAll(t, target, replacement)
    decreases |s|
  {
    if s == [] {
      assert s + t == t;
    } else {
      assert (s + t)[0] == s[0] != target[0];
      assert !StartsWith(s + t, target);
      assert (s + t)[1..] == s[1..] + t;
      ReplaceAllSkips(s[1..], t, target, replacement);
    }
  }

  /** Deleting one character with `replace(c, '')` leaves no `c` behind and
      keeps every other character, in order. */
  lemma {:induction false} RemoveCharSpec(s: string, c: char)
    ensures var r := ReplaceAll(s, [c], []);
      |r| <= |s| && (forall i :: 0 <= i < |r| ==> r[i] != c && r[i] in s)
      && (forall x :: x in s && x != c ==> x in r)
    decreases |s|
  {
    if s != [] {
      RemoveCharSpec(s[1..], c);
      var rest := ReplaceAll(s[1..], [c], []);
      assert forall x :: x in s[1..] ==> x in s;
      if s[0] == c {
        assert StartsWith(s, [c]);
        assert ReplaceAll(s, [c], []) == rest;
      } else {
        assert !StartsWith(s, [c]);
        assert ReplaceAll(s, [c], []) == [s[0]] + rest;
      }
    }
  }

  /** Leading white space removed. */
  function TrimStart(s: string): (r: string)
    ensures |r| <= |s| && r == s[|s| - |r|..]
    ensures forall i :: 0 <= i < |s| - |r| ==> IsSpace(s[i])
    ensures r != [] ==> !IsSpace(r[0])
    decreases |s|
  {
    if s != [] && IsSpace(s[0]) then TrimStart(s[1..]) else s
  }

  /** Trailing white space removed. */
  function TrimEnd(s: string): (r: string)
    ensures |r| <= |s| && r == s[..|r|]
    ensures forall i :: |r| <= i < |s| ==> IsSpace(s[i])
    ensures r != [] ==> !IsSpace(r[|r| - 1])
    decreases |s|
  {
    if s != [] && IsSpace(s[|s| - 1]) then TrimEnd(s[..|s| - 1]) else s
  }

  /** `r` is the slice `s[i..j]` and everything of `s` outside it is white
      space. */
  predicate IsTrimmedSlice(s: string, r: string, i: int, j: int)
  {
    0 <= i <= j <= |s| && r == s[i..j]
    && (forall k :: 0 <= k < i ==> IsSpace(s[k]))
    && (forall k :: j <= k < |s| ==> IsSpace(s[k]))
  }

  /** Python's `s.strip()`: the slice of `s` left when the white space at
      both ends is dropped; it neither begins nor ends with white space. */
  function Strip(s: string): (r: string)
    ensures exists i, j :: IsTrimmedSlice(s, r, i, j)
    ensures r != [] ==> !IsSpace(r[0]) && !IsSpace(r[|r| - 1])
  {
    var e := TrimEnd(s);
    var r := TrimStart(e);
    TrimmedSlice(s, e, r);
    r
  }

  lemma {:induction false} TrimmedSlice(s: string, e: string, r: string)
    requires e == TrimEnd(s) && r == TrimStart(e)
    ensures IsTrimmedSlice(s, r, |e| - |r|, |e|)
  {
    var i := |e| - |r|;
    assert forall k :: 0 <= k < i ==> s[k] == e[k];
    assert r == s[i..|e|];
  }

  /** Stripping drops white space only. */
  lemma {:induction false} StripKeeps(s: string, k: nat)
    requires k < |s| && !IsSpace(s[k])
    ensures s[k] in Strip(s)
  {
    var e := TrimEnd(s);
    assert k < |e| && e[k] == s[k];
    var r := TrimStart(e);
    assert k >= |e| - |r|;
    assert r[k - (|e| - |r|)] == s[k];
  }

  /** A string that neither begins nor ends with white space is its own strip. */
  lemma {:induction false} StripUnchanged(s: string)
    requires s != [] ==> !IsSpace(s[0]) && !IsSpace(s[|s| - 1])
    ensures Strip(s) == s
  {
    if s != [] {
      assert TrimEnd(s) == s;
    }
  }

  /** ASCII case folding: `str.lower()` restricted to A-Z. */
  function LowerChar(c: char): char
  {
    if 'A' <= c <= 'Z' then (c as int - 'A' as int + 'a' as int) as char else c
  }

  function Lower(s: string): string
  {
    seq(|s|, i requires 0 <= i < |s| => LowerChar(s[i]))
  }

  /** `s.split(sep)[-1]`: the piece after the last `sep` (all of `s` when it
      has none). */
  function LastSegment(s: string, sep: char): (r: string)
    ensures sep !in r
    ensures |r| <= |s| && r == s[|s| - |r|..]
    ensures |r| < |s| ==> s[|s| - |r| - 1] == sep
    decreases |s|
  {
    if s == [] then []
    else if s[|s| - 1] == sep then []
    else
      var p := s[..|s| - 1];
      var q := LastSegment(p, sep);
      var r := q + [s[|s| - 1]];
      assert s[|s| - |r|..] == p[|p| - |q|..] + [s[|s| - 1]];
      assert |q| < |p| ==> s[|s| - |r| - 1] == p[|p| - |q| - 1];
      r
  }

  /** Number of leading characters of `s` that satisfy `IsDigit`. */
  function DigitRun(s: string): (n: nat)
    ensures n <= |s| && AllDigits(s[..n])
    ensures n < |s| ==> !IsDigit(s[n])
    decreases |s|
  {
    if s != [] && IsDigit(s[0]) then
      var n := 1 + DigitRun(s[1..]);
      assert s[..n] == [s[0]] + s[1..][..n - 1];
      n
    else 0
  }

  /** The digit run of a digit string followed by a non-digit is that string. */
  lemma {:induction false} DigitRunOf(d: string, rest: string)
    requires AllDigits(d)
    requires rest != [] ==> !IsDigit(rest[0])
    ensures DigitRun(d + rest) == |d|
    ensures (d + rest)[..|d|] == d
  {
    var s := d + rest;
    assert s[..|d|] == d;
  }

  /** Number of leading white-space characters of `s`. */
  function SpaceRun(s: string): (n: nat)
    ensures n <= |s| && (forall i :: 0 <= i < n ==> IsSpace(s[i]))
    ensures n < |s| ==> !IsSpace(s[n])
    decreases |s|
  {
    if s != [] && IsSpace(s[0]) then 1 + SpaceRun(s[1..]) else 0
  }

  function DigitChar(d: nat): char
    requires d < 10
  {
    ('0' as int + d) as char
  }

  /** The value of a string of decimal digits, as Python's `int()` reads it. */
  function DigitsValue(s: string): nat
    requires AllDigits(s)
  {
    if s == [] then 0
    else DigitsValue(s[..|s| - 1]) * 10 + (s[|s| - 1] as int - '0' as int)
  }

  /** The shortest decimal spelling of `n`. */
  function NatString(n: nat): (s: string)
    ensures s != [] && AllDigits(s)
  {
    if n < 10 then [DigitChar(n)] else NatString(n / 10) + [DigitChar(n % 10)]
  }

  /** Reading back a written count gives the count. */
  lemma {:induction false} NatStringValue(n: nat)
    ensures DigitsValue(NatString(n)) == n
  {
    if n >= 10 {
      var s := NatString(n);
      assert s[..|s| - 1] == NatString(n / 10);
      NatStringValue(n / 10);
    }
  }
}
