/** The numeric normalizer `parse_view_count` (analyze_channel.py:56-74)
    and the truncating `int()` conversion the analyzer applies to its
    results. Python's `float` is replaced by exact rationals (`real`). */
module Numbers {
  import opened Text
  import opened Wrappers

  function Pow10(n: nat): (r: nat)
    ensures r >= 1
  {
    if n == 0 then 1 else 10 * Pow10(n - 1)
  }

  /** The characters a decimal literal can contain. */
  predicate IsNumeralChar(c: char)
  {
    IsDigit(c) || c == '.' || c == '+' || c == '-'
  }

  /** The value of a decimal literal: an optional sign, then digits with
      at most one `.`, at least one digit in all ("12", "12.", ".5", "-1.25").
      `None` for anything else. */
  function DecimalLiteral(t: string): Option<real>
  {
    var signed := |t| > 0 && (t[0] == '+' || t[0] == '-');
    var body := if signed then t[1..] else t;
    var n := DigitRun(body);
    var whole := DigitsValue(body[..n]) as real;
    var rest := body[n..];
    var magnitude :=
      if rest == [] && n > 0 then Some(whole)
      else if rest != [] && rest[0] == '.' && AllDigits(rest[1..]) && n + |rest| > 1 then
        Some(whole + DigitsValue(rest[1..]) as real / Pow10(|rest| - 1) as real)
      else None;
    match magnitude
    case Some(v) => if |t| > 0 && t[0] == '-' then Some(-v) else Some(v)
    case None => None
  }

  /** A literal is made of numeral characters only. */
  lemma {:induction false} DecimalLiteralChars(t: string)
    requires DecimalLiteral(t).Some?
    ensures forall i :: 0 <= i < |t| ==> IsNumeralChar(t[i])
  {
    var signed := |t| > 0 && (t[0] == '+' || t[0] == '-');
    var body := if signed then t[1..] else t;
    var n := DigitRun(body);
    var rest := body[n..];
    assert forall i :: 0 <= i < n ==> body[i] == body[..n][i];
    assert forall i :: n < i < |body| ==> body[i] == rest[1..][i - n - 1];
    forall i | 0 <= i < |t| ensures IsNumeralChar(t[i]) {
      if i > 0 || !signed {
        assert t[i] == body[if signed then i - 1 else i];
      }
    }
  }

  /** `float(x)` on the literals above: Python strips white space first. */
  function ToFloat(s: string): Option<real>
  {
    DecimalLiteral(Strip(s))
  }

  /** A text holding a non-space character that is no numeral character
      does not convert. */
  lemma {:induction false} ToFloatRejects(s: string, k: nat)
    requires k < |s| && !IsSpace(s[k]) && !IsNumeralChar(s[k])
    ensures ToFloat(s).None?
  {
    StripKeeps(s, k);
    if ToFloat(s).Some? {
      DecimalLiteralChars(Strip(s));
    }
  }

  /** The text `parse_view_count` works on once " views", " view" and ","
      are removed and the ends stripped. */
  function CleanViewText(viewText: string): string
  {
    Strip(ReplaceAll(ReplaceAll(ReplaceAll(viewText, " views", ""), " view", ""), ",", ""))
  }

  /** The multiplier the first magnitude letter present selects, in the
      order K, M, B. */
  function Multiplier(cleaned: string): real
  {
    if 'K' in cleaned then 1000.0
    else if 'M' in cleaned then 1000000.0
    else if 'B' in cleaned then 1000000000.0
    else 1.0
  }

  /** The text left once every occurrence of that letter is deleted. */
  function Numeral(cleaned: string): string
  {
    if 'K' in cleaned then ReplaceAll(cleaned, "K", "")
    else if 'M' in cleaned then ReplaceAll(cleaned, "M", "")
    else if 'B' in cleaned then ReplaceAll(cleaned, "B", "")
    else cleaned
  }

  /** `parse_view_count`: the first of K, M and B that occurs picks the
      multiplier and every occurrence of that letter is deleted; what is
      left is converted, and anything that does not convert yields 0. */
  function ParseViewCount(viewText: string): real
  {
    ParseCleaned(CleanViewText(viewText))
  }

  /** The conversion applied to the cleaned text. */
  function ParseCleaned(cleaned: string): real
  {
    match ToFloat(Numeral(cleaned))
    case Some(v) => v * Multiplier(cleaned)
    case None => 0.0
  }

  /** Only one magnitude letter is ever removed: a cleaned text that holds
      two different ones keeps the second, does not convert, and yields 0
      ("1KM" and "2MB" give 0, not a product of multipliers). */
  lemma {:induction false} TwoMagnitudesYieldZero(viewText: string)
    requires var c := CleanViewText(viewText);
      ('K' in c && ('M' in c || 'B' in c)) || ('M' in c && 'B' in c)
    ensures ParseViewCount(viewText) == 0.0
  {
    SecondLetterRemains(CleanViewText(viewText));
  }

  lemma {:induction false} SecondLetterRemains(c: string)
    requires ('K' in c && ('M' in c || 'B' in c)) || ('M' in c && 'B' in c)
    ensures ToFloat(Numeral(c)).None?
  {
    var dropped := if 'K' in c then 'K' else 'M';
    var kept := if 'K' in c && 'M' in c then 'M' else 'B';
    var numeral := ReplaceAll(c, [dropped], []);
    assert numeral == Numeral(c);
    RemoveCharSpec(c, dropped);
    assert kept in numeral;
    var k :| 0 <= k < |numeral| && numeral[k] == kept;
    ToFloatRejects(numeral, k);
  }

  /** The magnitude a count is written with. */
  datatype Magnitude = Units | Thousands | Millions | Billions {
    function Letter(): string
    {
      match this
      case Units => ""
      case Thousands => "K"
      case Millions => "M"
      case Billions => "B"
    }

    function Multiplier(): nat
    {
      match this
      case Units => 1
      case Thousands => 1000
      case Millions => 1000000
      case Billions => 1000000000
    }
  }

  /** The unit word a page may put after a count. */
  datatype UnitWord = NoWord | ViewWord | ViewsWord {
    function Text(): string
    {
      match this
      case NoWord => ""
      case ViewWord => " view"
      case ViewsWord => " views"
    }
  }

  /** How a page writes a count: digits, an optional magnitude letter and
      an optional unit word ("12", "3K views", "7M view"). */
  function RenderCount(n: nat, m: Magnitude, w: UnitWord): string
  {
    NatString(n) + m.Letter() + w.Text()
  }

  /** Parsing a rendered count gives back the count times its magnitude:
      the unit word and nothing else is stripped, the letter selects its
      multiplier and the digits convert to the count. */
  lemma {:induction false} ParseRenderedCount(n: nat, m: Magnitude, w: UnitWord)
    ensures ParseViewCount(RenderCount(n, m, w)) == (n * m.Multiplier()) as real
  {
    CleanRenderedCount(n, m, w);
    ParseRenderedCore(n, m);
  }

  lemma {:induction false} ParseRenderedCore(n: nat, m: Magnitude)
    ensures ParseCleaned(NatString(n) + m.Letter()) == (n * m.Multiplier()) as real
  {
    NumeralOfRendered(NatString(n), m);
    ToFloatOfDigits(n);
  }

  lemma {:induction false} CleanRenderedCount(n: nat, m: Magnitude, w: UnitWord)
    ensures CleanViewText(RenderCount(n, m, w)) == NatString(n) + m.Letter()
  {
    RenderedCore(n, m);
    CleanRendered(NatString(n) + m.Letter(), w);
  }

  lemma {:induction false} RenderedCore(n: nat, m: Magnitude)
    ensures var core := NatString(n) + m.Letter();
      core != [] && !IsSpace(core[0]) && !IsSpace(core[|core| - 1])
      && forall i :: 0 <= i < |core| ==> core[i] != ' ' && core[i] != ','
  {
    var d := NatString(n);
    var core := d + m.Letter();
    assert forall i :: 0 <= i < |d| ==> core[i] == d[i];
  }

  lemma {:induction false} CleanRendered(core: string, w: UnitWord)
    requires core != [] && !IsSpace(core[0]) && !IsSpace(core[|core| - 1])
    requires forall i :: 0 <= i < |core| ==> core[i] != ' ' && core[i] != ','
    ensures CleanViewText(core + w.Text()) == core
  {
    ReplaceAllSkips(core, w.Text(), " views", "");
    var afterViews := ReplaceAll(w.Text(), " views", "");
    assert afterViews == (if w == ViewWord then " view" else "") by {
      if w == ViewWord {
        ReplaceAllSkips("view", [], " views", "");
        assert "view" + [] == "view";
        assert !StartsWith(" view", " views");
        assert " view"[1..] == "view";
      } else if w == ViewsWord {
        assert StartsWith(" views", " views");
        assert " views"[6..] == [];
      }
    }
    ReplaceAllSkips(core, afterViews, " view", "");
    assert ReplaceAll(afterViews, " view", "") == [] by {
      if w == ViewWord {
        assert StartsWith(" view", " view");
        assert " view"[5..] == [];
      }
    }
    assert core + [] == core;
    ReplaceAllSkips(core, [], ",", "");
    StripUnchanged(core);
  }

  lemma {:induction false} NumeralOfRendered(d: string, m: Magnitude)
    requires AllDigits(d)
    ensures Numeral(d + m.Letter()) == d
    ensures Multiplier(d + m.Letter()) == m.Multiplier() as real
  {
    var core := d + m.Letter();
    assert forall i :: 0 <= i < |d| ==> core[i] == d[i];
    assert 'K' in core <==> m == Thousands;
    assert 'M' in core <==> m == Millions;
    assert 'B' in core <==> m == Billions;
    if m != Units {
      assert forall i :: 0 <= i < |d| ==> d[i] != m.Letter()[0];
      ReplaceAllSkips(d, m.Letter(), m.Letter(), "");
      assert StartsWith(m.Letter(), m.Letter());
      assert m.Letter()[1..] == [];
      assert d + [] == d;
    } else {
      assert core == d;
    }
  }

  lemma {:induction false} DigitsLiteral(d: string)
    requires d != [] && AllDigits(d)
    ensures DecimalLiteral(d) == Some(DigitsValue(d) as real)
  {
    assert IsDigit(d[0]);
    assert DigitRun(d) == |d|;
    assert d[..|d|] == d;
  }

  lemma {:induction false} ToFloatOfDigits(n: nat)
    ensures ToFloat(NatString(n)) == Some(n as real)
  {
    var d := NatString(n);
    assert IsDigit(d[0]) && IsDigit(d[|d| - 1]);
    StripUnchanged(d);
    DigitsLiteral(d);
    NatStringValue(n);
  }

  /** `int(x)` on a float: truncation toward zero. */
  function Trunc(x: real): (r: int)
    ensures x >= 0.0 ==> 0 <= r && r as real <= x < r as real + 1.0
    ensures x < 0.0 ==> r <= 0 && r as real - 1.0 < x <= r as real
  {
    if x >= 0.0 then x.Floor else -((-x).Floor)
  }
}
