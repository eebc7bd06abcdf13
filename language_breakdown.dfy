/** The language breakdown cards: one card per language row of the SDK report
    with its test count and pass rate, the rate coloured by three thresholds,
    and a click that opens the language's run summary. */
module LanguageBreakdown {
  import opened Nullable
  import opened Text
  import opened Rates

  /** The style of a pass rate. */
  datatype Style = Style(color: string, fontWeight: string)

  const GreenStyle: Style := Style("#39ff14", "normal")
  const OrangeStyle: Style := Style("#ffa500", "bold")
  const RedStyle: Style := Style("#ff1a1a", "bold")

  /** `getPassRateStyle`: green from 90 up, orange from 80 up to 90, red below 80. */
  function PassRateStyle(rate: real): (s: Style)
    ensures s == GreenStyle <==> rate >= 90.0
    ensures s == OrangeStyle <==> 80.0 <= rate < 90.0
    ensures s == RedStyle <==> rate < 80.0
  {
    if rate >= 90.0 then GreenStyle
    else if rate >= 80.0 then OrangeStyle
    else RedStyle
  }

  /** The severity order of the styles: red below orange below green. */
  function Rank(s: Style): int {
    if s == GreenStyle then 2 else if s == OrangeStyle then 1 else 0
  }

  /** A higher rate never gets a more severe style. */
  lemma PassRateStyleMonotone(lo: real, hi: real)
    requires lo <= hi
    ensures Rank(PassRateStyle(lo)) <= Rank(PassRateStyle(hi))
  {
  }

  /** Every rate gets one of the three styles. */
  lemma PassRateStyleOneOfThree(rate: real)
    ensures PassRateStyle(rate) in {GreenStyle, OrangeStyle, RedStyle}
  {
  }

  /** One row of the report's `summary`; `tests` or `passed` may be missing. */
  datatype SummaryEntry = SummaryEntry(language: string, tests: Option<int>, passed: Option<int>)

  /** A card: the language, its number of tests and its exact pass rate. */
  datatype Card = Card(name: string, total: int, passRate: real)

  /** The card of one row: missing counts are 0, and the rate is 0 without
      tests and the exact percentage of passed tests otherwise. */
  function CardOf(e: SummaryEntry): (c: Card)
    ensures c.name == e.language && c.total == OrZero(e.tests)
    ensures c.total <= 0 ==> c.passRate == 0.0
    ensures c.total > 0 ==> c.passRate * c.total as real == OrZero(e.passed) as real * 100.0
  {
    var total := OrZero(e.tests);
    var passed := OrZero(e.passed);
    Card(e.language, total, if total > 0 then Percentage(passed, total) else 0.0)
  }

  /** With no more passed tests than tests, a card's rate lies between 0 and 100. */
  lemma CardRateBounds(e: SummaryEntry)
    requires 0 <= OrZero(e.passed) <= OrZero(e.tests)
    ensures 0.0 <= CardOf(e).passRate <= 100.0
  {
    if OrZero(e.tests) > 0 {
      PercentageBounds(OrZero(e.passed), OrZero(e.tests));
    }
  }

  /** The cards: one card per row, in order, none when
      the report has no summary. */
  function Cards(summary: Option<seq<SummaryEntry>>): (r: seq<Card>)
    ensures summary.None? ==> r == []
    ensures |r| == |OrEmpty(summary)|
    ensures forall i :: 0 <= i < |r| ==> r[i] == CardOf(OrEmpty(summary)[i])
  {
    var rows := OrEmpty(summary);
    seq(|rows|, i requires 0 <= i < |rows| => CardOf(rows[i]))
  }

  /** The style of each card's rate, in card order. */
  function CardStyles(cards: seq<Card>): (r: seq<Style>)
    ensures |r| == |cards|
    ensures forall i :: 0 <= i < |r| ==> r[i] == PassRateStyle(cards[i].passRate)
  {
    seq(|cards|, i requires 0 <= i < |cards| => PassRateStyle(cards[i].passRate))
  }

  /** A card with no tests is shown red. */
  lemma NoTestsIsRed(e: SummaryEntry)
    requires OrZero(e.tests) <= 0
    ensures PassRateStyle(CardOf(e).passRate) == RedStyle
  {
  }

  /** What a click on a card reports: the lower-cased language name. */
  function CardClickTarget(c: Card): (r: string)
    ensures |r| == |c.name|
    ensures forall i :: 0 <= i < |r| ==> !IsUpper(r[i]) && r[i] == LowerChar(c.name[i])
  {
    ToLower(c.name)
  }
}
