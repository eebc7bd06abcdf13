/** The summary card of one SDK run: a heading with the capitalised SDK name
    and the run's figures. */
module SummaryCard {
  import opened Nullable
  import opened Text

  const HeadingSuffix: string := " Test Summary Stats"
  const DefaultHeading: string := "Test Summary Stats"

  /** The capitalised SDK name: no name for a missing or empty `sdkName`; otherwise the name with its
      first character upper-cased and the rest unchanged. */
  function DisplayName(sdkName: Option<string>): (r: Option<string>)
    ensures r.None? <==> sdkName.None? || sdkName.value == ""
    ensures r.Some? ==> |r.value| == |sdkName.value|
    ensures r.Some? ==> r.value[0] == UpperChar(sdkName.value[0]) && r.value[1..] == sdkName.value[1..]
  {
    if sdkName.None? || sdkName.value == "" then None
    else Some([UpperChar(sdkName.value[0])] + sdkName.value[1..])
  }

  /** A display name is never upper-cased at its start again by a second pass. */
  lemma DisplayNameIdempotent(sdkName: Option<string>)
    ensures DisplayName(DisplayName(sdkName)) == DisplayName(sdkName)
  {
    var d := DisplayName(sdkName);
    if d.Some? {
      assert [UpperChar(d.value[0])] + d.value[1..] == d.value;
    }
  }

  /** The heading: the display name followed by the suffix, or the default heading without a name. */
  function Heading(sdkName: Option<string>): (r: string)
    ensures DisplayName(sdkName).None? ==> r == DefaultHeading
    ensures DisplayName(sdkName).Some? ==> r == DisplayName(sdkName).value + HeadingSuffix
  {
    match DisplayName(sdkName)
    case None => DefaultHeading
    case Some(name) => name + HeadingSuffix
  }

  /** A heading always ends with the default heading's words. */
  lemma HeadingEndsWithDefault(sdkName: Option<string>)
    ensures |Heading(sdkName)| >= |DefaultHeading|
    ensures Heading(sdkName)[|Heading(sdkName)| - |DefaultHeading|..] == DefaultHeading
  {
    var h := Heading(sdkName);
    if DisplayName(sdkName).Some? {
      assert h[|h| - |DefaultHeading|..] == HeadingSuffix[1..];
    }
  }

  /** The services tile: 0 when the prop is `undefined` (the destructuring
      default), otherwise the prop. */
  function ServicesShown(services: Option<int>): (r: int)
    ensures services.None? ==> r == 0
    ensures services.Some? ==> r == services.value
  {
    OrZero(services)
  }
}
