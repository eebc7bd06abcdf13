/** The SDK statistics side panel: the "SDK Stats" and "No SDK Tests" buttons
    fetch a report into the panel, the SDK report getting totals over its
    per-language rows, and the "Subscribe" button opens an e-mail form. */
module Stats {
  import opened Nullable
  import opened Sequences
  import opened Rates

  const SdkStatsTitle: string := "SDK Stats"
  const NoTestsTitle: string := "No SDK Tests"
  const SubscribeTitle: string := "Subscribe"

  const InvalidEmailMessage: string := "Please enter a valid email address."
  const SubscribedMessage: string := "✅ Subscription request sent! Check your email to confirm."
  const SubscribeFailedMessage: string := "❌ Failed to subscribe. Try again later."

  /** One per-language row of the SDK report. */
  datatype SummaryRow = SummaryRow(language: string, tests: int, passed: int, failed: int)

  /** The totals shown above the rows. The pass rate is exact; the source
      formats it to two decimals. */
  datatype Totals = Totals(totalTests: int, totalPassed: int, totalFailed: int, totalIgnored: int, overallPassRate: real)

  /** A fetched report: `summary` is absent when the report has none. */
  datatype Report = Report(summary: Option<seq<SummaryRow>>, body: string)

  /** What the panel shows: the SDK report with its totals, or any other report as fetched. */
  datatype PanelData = SdkStatsPanel(summary: seq<SummaryRow>, totals: Totals) | RawPanel(report: Report)

  /** How a subscription request ended: an answer with its text, or a failure
      (no answer, or an answer whose status is not OK). */
  datatype SubscribeOutcome = Answered(text: string) | Failed

  function TestsOf(r: SummaryRow): int { r.tests }

  function PassedOf(r: SummaryRow): int { r.passed }

  function FailedOf(r: SummaryRow): int { r.failed }

  /** The totals of the SDK report: the three sums over the rows, no ignored
      tests, and the pass rate of the sums, zero when there are no tests. */
  function ComputeTotals(summary: seq<SummaryRow>): (t: Totals)
    ensures t.totalTests == Sum(summary, TestsOf)
    ensures t.totalPassed == Sum(summary, PassedOf)
    ensures t.totalFailed == Sum(summary, FailedOf)
    ensures t.totalIgnored == 0
    ensures t.totalTests == 0 ==> t.overallPassRate == 0.0
    ensures t.totalTests != 0 ==> t.overallPassRate * t.totalTests as real == t.totalPassed as real * 100.0
  {
    var tests := Sum(summary, TestsOf);
    var passed := Sum(summary, PassedOf);
    var failed := Sum(summary, FailedOf);
    Totals(tests, passed, failed, 0, if tests != 0 then Percentage(passed, tests) else 0.0)
  }

  /** An empty report has zero totals. */
  lemma TotalsOfEmpty()
    ensures ComputeTotals([]) == Totals(0, 0, 0, 0, 0.0)
  {
  }

  /** The counts of two reports put together are the sums of their counts. */
  lemma TotalsAppend(a: seq<SummaryRow>, b: seq<SummaryRow>)
    ensures ComputeTotals(a + b).totalTests == ComputeTotals(a).totalTests + ComputeTotals(b).totalTests
    ensures ComputeTotals(a + b).totalPassed == ComputeTotals(a).totalPassed + ComputeTotals(b).totalPassed
    ensures ComputeTotals(a + b).totalFailed == ComputeTotals(a).totalFailed + ComputeTotals(b).totalFailed
  {
    SumAppend(a, b, TestsOf);
    SumAppend(a, b, PassedOf);
    SumAppend(a, b, FailedOf);
  }

  /** When no row passes more tests than it has, or a negative number, the
      overall pass rate lies between 0 and 100. */
  lemma PassRateBounds(summary: seq<SummaryRow>)
    requires forall i :: 0 <= i < |summary| ==> 0 <= summary[i].passed <= summary[i].tests
    ensures 0.0 <= ComputeTotals(summary).overallPassRate <= 100.0
  {
    SumMonotone(summary, PassedOf, TestsOf);
    SumNonNegative(summary, PassedOf);
    var t := ComputeTotals(summary);
    if t.totalTests != 0 {
      PercentageBounds(t.totalPassed, t.totalTests);
    }
  }

  /** When every row's passed and failed make up its tests, so do the totals'. */
  lemma TotalsAddUp(summary: seq<SummaryRow>)
    requires forall i :: 0 <= i < |summary| ==> summary[i].passed + summary[i].failed == summary[i].tests
    ensures ComputeTotals(summary).totalPassed + ComputeTotals(summary).totalFailed == ComputeTotals(summary).totalTests
  {
    SumDifference(summary, TestsOf, FailedOf, PassedOf);
  }

  /** Java with 432 of 442 passing and Python with 450 of 500 give 942 tests,
      882 passed and 60 failed, a pass rate of 93.63 to two decimals. */
  lemma TwoLanguageExample()
    ensures var t := ComputeTotals([SummaryRow("java", 442, 432, 10), SummaryRow("python", 500, 450, 50)]);
      t.totalTests == 942 && t.totalPassed == 882 && t.totalFailed == 60 && t.totalIgnored == 0
      && t.overallPassRate * 942.0 == 88200.0
      && HalfUpHundredths(t.totalPassed, t.totalTests) == 9363
  {
    var rows := [SummaryRow("java", 442, 432, 10), SummaryRow("python", 500, 450, 50)];
    TotalsAppend([rows[0]], [rows[1]]);
    assert rows == [rows[0]] + [rows[1]];
  }

  /** The panel contents once the fetch of `title`'s report has ended
      (`None` when it failed): nothing on failure, and nothing when the SDK
      report has no rows to total; the SDK report with its rows unchanged and
      their totals; any other report as fetched. */
  function PanelAfterFetch(title: string, response: Option<Report>): (r: Option<PanelData>)
    ensures response.None? ==> r.None?
    ensures title == SdkStatsTitle && response.Some? && response.value.summary.Some? ==>
      r == Some(SdkStatsPanel(response.value.summary.value, ComputeTotals(response.value.summary.value)))
    ensures title == SdkStatsTitle && response.Some? && response.value.summary.None? ==> r.None?
    ensures title != SdkStatsTitle && response.Some? ==> r == Some(RawPanel(response.value))
  {
    if response.None? then None
    else if title == SdkStatsTitle then
      if response.value.summary.Some? then
        var summary := response.value.summary.value;
        Some(SdkStatsPanel(summary, ComputeTotals(summary)))
      else None
    else Some(RawPanel(response.value))
  }

  /** The panel's state fields and the handlers that update them. */
  class StatsPanel {
    var showSidePanel: bool
    var sidePanelTitle: string
    var loadingPanelData: bool
    var panelData: Option<PanelData>
    var email: string
    var subscribing: bool
    var subscriptionMessage: string

    /** Nothing is shown while a report loads, and an SDK report's totals are
        always those of its rows. */
    predicate Valid()
      reads this
    {
      (loadingPanelData ==> panelData.None?)
      && (panelData.Some? && panelData.value.SdkStatsPanel? ==>
            panelData.value.totals == ComputeTotals(panelData.value.summary))
    }

    constructor ()
      ensures Valid()
      ensures !showSidePanel && sidePanelTitle == "" && !loadingPanelData && panelData.None?
      ensures email == "" && !subscribing && subscriptionMessage == ""
    {
      showSidePanel := false;
      sidePanelTitle := "";
      loadingPanelData := false;
      panelData := None;
      email := "";
      subscribing := false;
      subscriptionMessage := "";
    }

    /** The start of `fetchData(title, ...)`: the panel opens, empty, loading. */
    method BeginFetch(title: string)
      requires Valid()
      modifies this`sidePanelTitle, this`panelData, this`showSidePanel, this`loadingPanelData
      ensures Valid()
      ensures sidePanelTitle == title && panelData.None? && showSidePanel && loadingPanelData
    {
      sidePanelTitle := title;
      panelData := None;
      showSidePanel := true;
      loadingPanelData := true;
    }

    /** The end of `fetchData(title, ...)`, on success or failure: the panel
        contents are set and loading stops. */
    method CompleteFetch(title: string, response: Option<Report>)
      requires Valid()
      modifies this`panelData, this`loadingPanelData
      ensures Valid()
      ensures panelData == PanelAfterFetch(title, response) && !loadingPanelData
    {
      panelData := PanelAfterFetch(title, response);
      loadingPanelData := false;
    }

    /** The "SDK Stats" button. */
    method HandleSdkStatsClick()
      requires Valid()
      modifies this`sidePanelTitle, this`panelData, this`showSidePanel, this`loadingPanelData
      ensures Valid()
      ensures sidePanelTitle == SdkStatsTitle && panelData.None? && showSidePanel && loadingPanelData
    {
      BeginFetch(SdkStatsTitle);
    }

    /** The "No SDK Tests" button. */
    method HandleNoTestsClick()
      requires Valid()
      modifies this`sidePanelTitle, this`panelData, this`showSidePanel, this`loadingPanelData
      ensures Valid()
      ensures sidePanelTitle == NoTestsTitle && panelData.None? && showSidePanel && loadingPanelData
    {
      BeginFetch(NoTestsTitle);
    }

    /** The "Subscribe" button: an empty form in the panel. */
    method HandleSubClick()
      requires Valid()
      modifies this`sidePanelTitle, this`panelData, this`showSidePanel, this`email, this`subscriptionMessage
      ensures Valid()
      ensures sidePanelTitle == SubscribeTitle && panelData.None? && showSidePanel
      ensures email == "" && subscriptionMessage == ""
    {
      sidePanelTitle := SubscribeTitle;
      panelData := None;
      showSidePanel := true;
      email := "";
      subscriptionMessage := "";
    }

    /** Typing in the e-mail field. */
    method SetEmail(value: string)
      modifies this`email
      ensures email == value
    {
      email := value;
    }

    /** Submitting the form. An empty address only sets the warning and sends
        nothing; otherwise the request for the address goes out and
        `subscribing` is set. Returns the address a request is sent for. */
    method HandleSubscribeSubmit() returns (request: Option<string>)
      modifies this`subscribing, this`subscriptionMessage
      ensures old(email) == "" ==> request.None? && subscriptionMessage == InvalidEmailMessage && subscribing == old(subscribing)
      ensures old(email) != "" ==> request == Some(email) && subscribing && subscriptionMessage == ""
    {
      if email == "" {
        subscriptionMessage := InvalidEmailMessage;
        return None;
      }
      subscribing := true;
      subscriptionMessage := "";
      request := Some(email);
    }

    /** The subscription request ending: an answer shows its text (or the
        default confirmation when it is empty) and clears the field; a failure
        shows the failure message and keeps the field; either way
        `subscribing` ends. */
    method CompleteSubscribe(outcome: SubscribeOutcome)
      modifies this`subscribing, this`subscriptionMessage, this`email
      ensures !subscribing
      ensures outcome.Answered? ==> email == ""
      ensures outcome.Answered? ==> subscriptionMessage == (if outcome.text == "" then SubscribedMessage else outcome.text)
      ensures outcome.Failed? ==> email == old(email) && subscriptionMessage == SubscribeFailedMessage
    {
      if outcome.Answered? {
        subscriptionMessage := if outcome.text == "" then SubscribedMessage else outcome.text;
        email := "";
      } else {
        subscriptionMessage := SubscribeFailedMessage;
      }
      subscribing := false;
    }

    /** The close button. */
    method ClosePanel()
      modifies this`showSidePanel
      ensures !showSidePanel
    {
      showSidePanel := false;
    }
  }
}
