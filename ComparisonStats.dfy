/**
 * `calculateLanguagePercentages` of `src/components/ComparisonStats.tsx` and
 * the pipeline that displays its result: each language's share of the
 * repositories, written with one decimal, sorted by decreasing share, five
 * kept.
 *
 * A share is held exactly as a whole number of tenths of a percent; the
 * rounding of `toFixed(1)` is applied to the exact quotient (halves go up).
 */
module ComparisonStats {
  import opened JsText
  import opened Repos
  import Sorting

  /** A share in tenths of a percent, or NaN (the quotient 0 / 0). */
  datatype Percentage = Tenths(tenths: nat) | NotANumber

  datatype LanguagePercentage = LanguagePercentage(language: string, percentage: Percentage)

  predicate NonNegativeCounts(langs: seq<LanguageCount>) {
    forall i :: 0 <= i < |langs| ==> langs[i].value >= 0
  }

  /**
   * `((count / total) * 100).toFixed(1)`: the tenths nearest to
   * 1000 * count / total, a half rounded up; NaN when the total is 0.
   */
  function PercentageOf(count: int, total: int): (p: Percentage)
    requires 0 <= count <= total
    ensures p.NotANumber? <==> total == 0
    ensures p.Tenths? ==> 2000 * count - total < 2 * total * p.tenths <= 2000 * count + total
    ensures p.Tenths? ==> p.tenths <= 1000
  {
    if total == 0 then NotANumber
    else
      var n := (2000 * count + total) / (2 * total);
      QuotientBounds(2000 * count + total, 2 * total);
      assert 2 * total * n < 2 * total * 1001 by {
        assert 2000 * count + total <= 2000 * total + total;
      }
      ProductCancel(2 * total, n, 1001);
      Tenths(n)
  }

  /** Euclidean division by a positive divisor brackets the dividend. */
  lemma QuotientBounds(a: int, d: int)
    requires d > 0
    ensures d * (a / d) <= a < d * (a / d) + d
  {
  }

  lemma ProductCancel(d: int, x: int, y: int)
    requires d > 0 && d * x < d * y
    ensures x < y
  {
  }

  lemma {:induction false} CountBelowTotal(langs: seq<LanguageCount>, i: nat)
    requires NonNegativeCounts(langs) && i < |langs|
    ensures 0 <= langs[i].value <= SumValues(langs)
  {
    var prefix := langs[..|langs| - 1];
    SumsNonNegative(prefix);
    if i < |langs| - 1 {
      CountBelowTotal(prefix, i);
    }
  }

  lemma {:induction false} SumsNonNegative(langs: seq<LanguageCount>)
    requires NonNegativeCounts(langs)
    ensures SumValues(langs) >= 0
  {
    if |langs| > 0 {
      SumsNonNegative(langs[..|langs| - 1]);
    }
  }

  function PercentagesWithTotal(langs: seq<LanguageCount>, total: int): (r: seq<LanguagePercentage>)
    requires forall i :: 0 <= i < |langs| ==> 0 <= langs[i].value <= total
    ensures |r| == |langs|
    ensures forall i :: 0 <= i < |r| ==>
      r[i] == LanguagePercentage(langs[i].name, PercentageOf(langs[i].value, total))
  {
    if |langs| == 0 then []
    else
      PercentagesWithTotal(langs[..|langs| - 1], total)
      + [LanguagePercentage(langs[|langs| - 1].name, PercentageOf(langs[|langs| - 1].value, total))]
  }

  /** The share of the `i`-th language in the whole dictionary. */
  function ShareOf(langs: seq<LanguageCount>, i: nat): Percentage
    requires NonNegativeCounts(langs) && i < |langs|
  {
    CountBelowTotal(langs, i);
    PercentageOf(langs[i].value, SumValues(langs))
  }

  /** One entry per language, in the dictionary's order, with the same name and its share of the total. */
  function CalculateLanguagePercentages(langs: seq<LanguageCount>): (r: seq<LanguagePercentage>)
    requires NonNegativeCounts(langs)
    ensures |r| == |langs|
    ensures forall i :: 0 <= i < |r| ==> r[i].language == langs[i].name && r[i].percentage == ShareOf(langs, i)
  {
    CountsBelowTotal(langs);
    PercentagesWithTotal(langs, SumValues(langs))
  }

  function SumTenths(ps: seq<LanguagePercentage>): int {
    if |ps| == 0 then 0
    else
      SumTenths(ps[..|ps| - 1])
      + (match ps[|ps| - 1].percentage case Tenths(n) => n case NotANumber => 0)
  }

  lemma {:induction false} SumTenthsWithTotal(langs: seq<LanguageCount>, total: int)
    requires total > 0
    requires forall i :: 0 <= i < |langs| ==> 0 <= langs[i].value <= total
    ensures var s := SumTenths(PercentagesWithTotal(langs, total));
      2000 * SumValues(langs) - |langs| * total <= 2 * total * s <= 2000 * SumValues(langs) + |langs| * total
  {
    if |langs| > 0 {
      var prefix := langs[..|langs| - 1];
      var last := langs[|langs| - 1];
      SumTenthsWithTotal(prefix, total);
      var ps := PercentagesWithTotal(langs, total);
      assert ps[..|ps| - 1] == PercentagesWithTotal(prefix, total);
      var n := PercentageOf(last.value, total).tenths;
      var s0 := SumTenths(PercentagesWithTotal(prefix, total));
      assert SumTenths(ps) == s0 + n;
      assert SumValues(langs) == SumValues(prefix) + last.value;
      SumStep(total, s0, n, SumValues(prefix), last.value, |prefix|, SumTenths(ps), SumValues(langs), |langs|);
    }
  }

  /** Adding one rounded share to a sum of rounded shares widens the error bound by one half. */
  lemma SumStep(t: int, s: int, n: int, v: int, c: int, k: int, s1: int, v1: int, k1: int)
    requires 2000 * v - k * t <= 2 * t * s <= 2000 * v + k * t
    requires 2000 * c - t < 2 * t * n <= 2000 * c + t
    requires s1 == s + n && v1 == v + c && k1 == k + 1
    ensures 2000 * v1 - k1 * t <= 2 * t * s1 <= 2000 * v1 + k1 * t
  {
    assert 2 * t * (s + n) == 2 * t * s + 2 * t * n;
    assert (k + 1) * t == k * t + t;
  }

  /** Dividing the error bound by the total. */
  lemma DivideBounds(t: int, s: int, k: int)
    requires t > 0
    requires 2000 * t - k * t <= 2 * t * s <= 2000 * t + k * t
    ensures -k <= 2 * s - 2000 <= k
  {
    assert t * (2 * s - 2000 + k) == 2 * t * s - (2000 * t - k * t);
    assert t * (2000 + k - 2 * s) == 2000 * t + k * t - 2 * t * s;
    FactorOut(t, 2 * s - 2000 + k);
    FactorOut(t, 2000 + k - 2 * s);
  }

  lemma FactorOut(t: int, x: int)
    requires t > 0 && t * x >= 0
    ensures x >= 0
  {
  }

  lemma CountsBelowTotal(langs: seq<LanguageCount>)
    requires NonNegativeCounts(langs)
    ensures forall i :: 0 <= i < |langs| ==> 0 <= langs[i].value <= SumValues(langs)
  {
    forall i | 0 <= i < |langs| ensures 0 <= langs[i].value <= SumValues(langs) {
      CountBelowTotal(langs, i);
    }
  }

  /**
   * The displayed shares add up to 100% up to rounding: the total of the
   * tenths is within half a tenth per language of 1000.
   */
  lemma PercentagesAddUp(langs: seq<LanguageCount>)
    requires NonNegativeCounts(langs) && SumValues(langs) > 0
    ensures var s := SumTenths(CalculateLanguagePercentages(langs));
      -|langs| <= 2 * s - 2000 <= |langs|
  {
    var total := SumValues(langs);
    CountsBelowTotal(langs);
    SumTenthsWithTotal(langs, total);
    assert CalculateLanguagePercentages(langs) == PercentagesWithTotal(langs, total);
    DivideBounds(total, SumTenths(PercentagesWithTotal(langs, total)), |langs|);
  }

  // ---------------------------------------------------------------------
  // The rendered text and the sort on `parseFloat` of it

  /** `toFixed(1)`: the whole part, a point, one decimal digit. */
  function FormatPercentage(p: Percentage): string {
    match p
    case Tenths(n) => NatToString(n / 10) + "." + [DigitChar(n % 10)]
    case NotANumber => "NaN"
  }

  /** Reads back a text of the form digits, point, one digit, as tenths. */
  function TenthsOfText(s: string): Option<int> {
    var whole := DigitPrefix(s, 10);
    if whole != "" && |s| == |whole| + 2 && s[|whole|] == '.' && IsDigitIn(s[|whole| + 1], 10)
    then Some(DigitsValue(whole, 10) * 10 + DigitValue(s[|whole| + 1]))
    else None
  }

  /** The number `parseFloat` reads from the text is the share itself, so sorting by it sorts by tenths. */
  lemma FormatPercentageRoundTrip(n: nat)
    ensures TenthsOfText(FormatPercentage(Tenths(n))) == Some(n)
  {
    var whole := NatToString(n / 10);
    var d := DigitChar(n % 10);
    var rest := "." + [d];
    var s := whole + rest;
    assert FormatPercentage(Tenths(n)) == s;
    DigitsOfNatToString(n / 10);
    DigitPrefixOfConcat(whole, rest, 10);
    assert |s| == |whole| + 2 && s[|whole|] == '.' && s[|whole| + 1] == d;
    assert DigitValue(d) == n % 10;
    TenthsSplit(n);
  }

  lemma TenthsSplit(n: nat)
    ensures (n / 10) * 10 + n % 10 == n
  {
  }

  /**
   * The sort key: the share in tenths. NaN arises only when every count is
   * 0, and then every comparison returns NaN, which the sort treats as equal,
   * exactly as a common key of 0 does.
   */
  function PercentKey(p: LanguagePercentage): int {
    match p.percentage
    case Tenths(n) => n
    case NotANumber => 0
  }

  const ShownLanguageCount: nat := 5

  /** `calculateLanguagePercentages(...).sort(byPercentageDescending).slice(0, 5)` */
  function DisplayedLanguages(langs: seq<LanguageCount>): seq<LanguagePercentage>
    requires NonNegativeCounts(langs)
  {
    Sorting.Top(CalculateLanguagePercentages(langs), PercentKey, ShownLanguageCount)
  }

  /**
   * At most five languages are shown, by non-increasing share, each one a
   * language of the dictionary with its share; no hidden language has a
   * larger share than a shown one; an empty dictionary shows nothing.
   */
  lemma DisplayedLanguagesSpec(langs: seq<LanguageCount>)
    requires NonNegativeCounts(langs)
    ensures var shown := DisplayedLanguages(langs);
      && |shown| == (if |langs| <= 5 then |langs| else 5)
      && Sorting.SortedDesc(shown, PercentKey)
      && (forall e :: e in shown ==>
            (exists i :: 0 <= i < |langs| && e.language == langs[i].name && e.percentage == ShareOf(langs, i)))
      && (forall e, d :: e in shown && d in multiset(CalculateLanguagePercentages(langs)) - multiset(shown)
                       ==> PercentKey(e) >= PercentKey(d))
      && (langs == [] ==> shown == [])
  {
    var all := CalculateLanguagePercentages(langs);
    var shown := DisplayedLanguages(langs);
    Sorting.TopSpec(all, PercentKey, ShownLanguageCount);
    forall e | e in shown
      ensures exists i :: 0 <= i < |langs| && e.language == langs[i].name && e.percentage == ShareOf(langs, i)
    {
      assert e in multiset(shown);
      assert e in all;
      var i :| 0 <= i < |all| && all[i] == e;
      assert e.language == langs[i].name;
    }
  }
}
