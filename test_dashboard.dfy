/** The test results dashboard: a summary of one language's run with its
    pass rate, the breakdown rows of all languages, and the language picker
    over the built-in sample data. */
module TestDashboard {
  import opened Nullable
  import opened Sequences
  import opened Rates

  const NoDuration: string := "—"

  /** The `summary` prop; any field may be missing. */
  datatype SummaryProps = SummaryProps(total: Option<int>, passed: Option<int>, failed: Option<int>, duration: Option<string>)

  /** The summary once its defaults are filled in. */
  datatype Summary = Summary(total: int, passed: int, failed: int, duration: string)

  /** The summary figures with their destructuring defaults: a count that is
      `undefined` reads as 0 and an `undefined` duration as a dash; an
      `undefined` summary reads as an empty one. */
  function ResolveSummary(summary: Option<SummaryProps>): (r: Summary)
    ensures summary.None? ==> r == Summary(0, 0, 0, NoDuration)
    ensures summary.Some? ==> r.total == OrZero(summary.value.total) && r.passed == OrZero(summary.value.passed)
    ensures summary.Some? ==> r.failed == OrZero(summary.value.failed)
    ensures summary.Some? ==> r.duration == (if summary.value.duration.Some? then summary.value.duration.value else NoDuration)
  {
    var props := if summary.Some? then summary.value else SummaryProps(None, None, None, None);
    Summary(OrZero(props.total), OrZero(props.passed), OrZero(props.failed),
      if props.duration.Some? then props.duration.value else NoDuration)
  }

  /** The pass rate: zero without tests, otherwise the exact percentage. */
  function PassRate(s: Summary): (r: real)
    ensures s.total <= 0 ==> r == 0.0
    ensures s.total > 0 ==> r * s.total as real == s.passed as real * 100.0
  {
    if s.total > 0 then Percentage(s.passed, s.total) else 0.0
  }

  /** A missing summary shows no tests and a zero rate. */
  lemma MissingSummaryShowsZero()
    ensures PassRate(ResolveSummary(None)) == 0.0
    ensures ResolveSummary(None).duration == NoDuration
  {
  }

  /** With no more passed than total tests, the rate lies between 0 and 100. */
  lemma PassRateBounds(s: Summary)
    requires 0 <= s.passed <= s.total
    ensures 0.0 <= PassRate(s) <= 100.0
  {
    if s.total > 0 {
      PercentageBounds(s.passed, s.total);
    }
  }

  /** One row of a language's breakdown; the stored pass rate is in hundredths. */
  datatype BreakdownRow = BreakdownRow(name: string, total: int, passRateHundredths: int)

  /** One language of the sample data. */
  datatype LanguageData = LanguageData(total: int, passed: int, failed: int, duration: string, languageBreakdown: seq<BreakdownRow>)

  /** `summaryData`, in its key order. */
  const SummaryData: seq<(string, LanguageData)> := [
    ("Java", LanguageData(800, 799, 1, "5 min 30 sec", [BreakdownRow("Java", 800, 9988)])),
    ("Python", LanguageData(500, 450, 50, "3 min 20 sec", [BreakdownRow("Python", 500, 9000)])),
    (".NET", LanguageData(480, 470, 10, "4 min 10 sec", [BreakdownRow(".NET", 480, 9792)]))
  ]

  /** The breakdown rows of all languages, in key order, concatenated. */
  function AllBreakdowns(data: seq<(string, LanguageData)>): seq<BreakdownRow> {
    Flatten(seq(|data|, i requires 0 <= i < |data| => data[i].1.languageBreakdown))
  }

  /** The flattened rows number the sum of the languages' row counts. */
  lemma AllBreakdownsLength(data: seq<(string, LanguageData)>)
    ensures |AllBreakdowns(data)| == Sum(seq(|data|, i requires 0 <= i < |data| => data[i].1.languageBreakdown), (x: seq<BreakdownRow>) => |x|)
  {
    FlattenLength(seq(|data|, i requires 0 <= i < |data| => data[i].1.languageBreakdown));
  }

  /** The sample data flattens to its three rows, in key order. */
  lemma SampleBreakdowns()
    ensures AllBreakdowns(SummaryData) == [
      BreakdownRow("Java", 800, 9988), BreakdownRow("Python", 500, 9000), BreakdownRow(".NET", 480, 9792)]
    ensures |AllBreakdowns(SummaryData)| == 3
  {
    var java, python, dotnet := [BreakdownRow("Java", 800, 9988)], [BreakdownRow("Python", 500, 9000)], [BreakdownRow(".NET", 480, 9792)];
    var ss := seq(|SummaryData|, i requires 0 <= i < |SummaryData| => SummaryData[i].1.languageBreakdown);
    assert ss == [java, python, dotnet];
    assert ss[1..] == [python, dotnet] && ss[1..][1..] == [dotnet] && ss[1..][1..][1..] == [];
    assert Flatten([dotnet]) == dotnet + Flatten([]);
    assert Flatten([python, dotnet]) == python + Flatten([dotnet]);
    assert Flatten(ss) == java + Flatten([python, dotnet]);
  }

  /** In the sample data passed and failed make up the total for every
      language, and each stored rate is the exact rate rounded half up to
      hundredths (799 of 800 is 99.88, 470 of 480 is 97.92). */
  lemma SampleDataConsistent()
    ensures forall i :: 0 <= i < |SummaryData| ==>
      var d := SummaryData[i].1;
      d.passed + d.failed == d.total && |d.languageBreakdown| == 1
      && d.languageBreakdown[0].name == SummaryData[i].0 && d.languageBreakdown[0].total == d.total
      && d.languageBreakdown[0].passRateHundredths == HalfUpHundredths(d.passed, d.total)
  {
    assert HalfUpHundredths(799, 800) == 9988;
    assert HalfUpHundredths(450, 500) == 9000;
    assert HalfUpHundredths(470, 480) == 9792;
  }

  /** `summaryData[key]`: the language with the key, if any. */
  function Lookup(data: seq<(string, LanguageData)>, key: string): (r: Option<LanguageData>)
    ensures r.None? <==> forall i :: 0 <= i < |data| ==> data[i].0 != key
    ensures r.Some? ==> exists i :: 0 <= i < |data| && data[i].0 == key && data[i].1 == r.value
  {
    if data == [] then None
    else if data[0].0 == key then Some(data[0].1)
    else
      var r := Lookup(data[1..], key);
      assert r.Some? ==> exists i :: 1 <= i < |data| && data[i].0 == key && data[i].1 == r.value by {
        if r.Some? {
          var i :| 0 <= i < |data[1..]| && data[1..][i].0 == key && data[1..][i].1 == r.value;
          assert data[i + 1] == data[1..][i];
        }
      }
      r
  }

  /** The props the dashboard receives for a language of the sample data. */
  function PropsOf(d: Option<LanguageData>): Option<SummaryProps> {
    if d.Some? then Some(SummaryProps(Some(d.value.total), Some(d.value.passed), Some(d.value.failed), Some(d.value.duration)))
    else None
  }

  /** A picked language of the sample data shows its own figures; any other key
      shows the defaults. */
  lemma ShownSummary(key: string)
    ensures var d := Lookup(SummaryData, key);
      d.Some? ==> ResolveSummary(PropsOf(d)) == Summary(d.value.total, d.value.passed, d.value.failed, d.value.duration)
    ensures key != "Java" && key != "Python" && key != ".NET" ==> ResolveSummary(PropsOf(Lookup(SummaryData, key))) == Summary(0, 0, 0, NoDuration)
  {
  }

  /** The breakdown panel: the rows, or the "No language data available." text. */
  datatype BreakdownView = BreakdownList(rows: seq<BreakdownRow>) | NoLanguageData

  function BreakdownViewOf(allBreakdowns: seq<BreakdownRow>): (v: BreakdownView)
    ensures v == NoLanguageData <==> allBreakdowns == []
    ensures v.BreakdownList? ==> v.rows == allBreakdowns
  {
    if |allBreakdowns| > 0 then BreakdownList(allBreakdowns) else NoLanguageData
  }

  /** The picker page. */
  class DashboardApp {
    var selectedLang: string

    constructor ()
      ensures selectedLang == "Java"
    {
      selectedLang := "Java";
    }

    /** Choosing a language in the picker. */
    method HandleChange(value: string)
      modifies this
      ensures selectedLang == value
    {
      selectedLang := value;
    }

    /** The summary shown for the current choice. */
    function ShownSummary(): Summary
      reads this
    {
      ResolveSummary(PropsOf(Lookup(SummaryData, selectedLang)))
    }
  }

  /** Before any choice the page shows Java's run. */
  lemma InitialSummaryIsJava()
    ensures ResolveSummary(PropsOf(Lookup(SummaryData, "Java"))) == Summary(800, 799, 1, "5 min 30 sec")
  {
  }
}
