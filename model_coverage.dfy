/** The AWS Model Code Coverage page for Kotlin: one row per service of the
    reference file with its operation and example counts, the global totals,
    the services sorted by coverage, and, for a clicked service, its
    operations (all of them documented in Kotlin) with the shared filters. */
module ModelCoverage {
  import opened Nullable
  import opened Sequences
  import opened Rates
  import opened Drilldown

  /** The twelve colours of this page's language buttons. */
  const LanguageColors: seq<string> := [
    "#e74c3c", "#3498db", "#f39c12", "#1abc9c",
    "#9b59b6", "#e67e22", "#2ecc71", "#34495e",
    "#16a085", "#8e44ad", "#d35400", "#2980b9"
  ]

  /** The page's only language. */
  const Kotlin: string := "Kotlin"

  /** The smallest height of the bar chart, in pixels. */
  const BarChartMinHeight: int := 240

  /** The counts the reference file holds for one service. */
  datatype ServiceStats = ServiceStats(operations: int, examples: int, names: Option<seq<string>>)

  /** The reference file: `services` lists the services in document order
      (absent when the file has no such member); `topLevel` is what a lookup
      of a service code at the top level of the file finds. */
  datatype KotlinRef = KotlinRef(services: Option<seq<(string, ServiceStats)>>, topLevel: map<string, ServiceStats>)

  /** A row of the service list. */
  datatype ServiceRow = ServiceRow(
    serviceName: string,
    serviceCode: string,
    operations: int,
    examples: int,
    coveragePercent: real,
    names: seq<string>)

  /** The service whose operations are shown. */
  datatype SelectedService = SelectedService(
    serviceName: string,
    serviceCode: string,
    operations: int,
    examples: int,
    coveragePercent: real,
    methods: seq<Operation>)

  /** A service's coverage: zero when it has no operations, otherwise the
      exact percentage of operations with examples. */
  function CoverageOf(stats: ServiceStats): (r: real)
    ensures stats.operations == 0 ==> r == 0.0
    ensures stats.operations != 0 ==> r * stats.operations as real == stats.examples as real * 100.0
  {
    if stats.operations == 0 then 0.0 else Percentage(stats.examples, stats.operations)
  }

  /** With no more examples than operations, a coverage lies between 0 and 100. */
  lemma CoverageOfBounds(stats: ServiceStats)
    requires 0 <= stats.examples <= stats.operations
    ensures 0.0 <= CoverageOf(stats) <= 100.0
  {
    if stats.operations != 0 {
      PercentageBounds(stats.examples, stats.operations);
    }
  }

  /** The row built for one service entry of the reference file: the name is
      both code and display name, and an absent name list reads as empty. */
  function RowOf(name: string, stats: ServiceStats): ServiceRow {
    ServiceRow(name, name, stats.operations, stats.examples, CoverageOf(stats), OrEmpty(stats.names))
  }

  /** `svcRows`: one row per entry, in order; the name is both name and code
      and a missing `names` list becomes empty. */
  function ServiceRows(entries: seq<(string, ServiceStats)>): (r: seq<ServiceRow>)
    ensures |r| == |entries|
    ensures forall i :: 0 <= i < |r| ==>
      r[i].serviceName == entries[i].0 && r[i].serviceCode == entries[i].0
      && r[i].operations == entries[i].1.operations && r[i].examples == entries[i].1.examples
      && r[i].coveragePercent == CoverageOf(entries[i].1) && r[i].names == OrEmpty(entries[i].1.names)
  {
    seq(|entries|, i requires 0 <= i < |entries| => RowOf(entries[i].0, entries[i].1))
  }

  /** The operations of a clicked service: one per listed name (none when the
      list is absent), each documented, in Kotlin only. */
  function LoadedMethods(names: Option<seq<string>>): (r: seq<Operation>)
    ensures |r| == |OrEmpty(names)|
    ensures forall i :: 0 <= i < |r| ==> r[i].name == OrEmpty(names)[i]
    ensures forall i :: 0 <= i < |r| ==> r[i].found && r[i].languages == Some([Kotlin])
  {
    var ns := OrEmpty(names);
    seq(|ns|, i requires 0 <= i < |ns| => Operation(ns[i], true, Some([Kotlin])))
  }

  /** Reading the names back off the loaded methods gives the names, in order. */
  lemma LoadedMethodsNames(names: Option<seq<string>>)
    ensures var ms := LoadedMethods(names);
      seq(|ms|, i requires 0 <= i < |ms| => ms[i].name) == OrEmpty(names)
  {
  }

  /** What `loadServiceOperations` leaves selected: when the file could not be
      read, or has no top-level entry for the code, the previous selection;
      otherwise that entry with its names as documented Kotlin operations. */
  function SelectAfterLoad(json: Option<KotlinRef>, code: string, current: Option<SelectedService>): (r: Option<SelectedService>)
    ensures json.None? || code !in json.value.topLevel ==> r == current
    ensures json.Some? && code in json.value.topLevel ==> (r.Some?
      && r.value.serviceCode == code && r.value.serviceName == code
      && r.value.operations == json.value.topLevel[code].operations
      && r.value.examples == json.value.topLevel[code].examples
      && r.value.coveragePercent == CoverageOf(json.value.topLevel[code])
      && r.value.methods == LoadedMethods(json.value.topLevel[code].names))
  {
    if json.None? || code !in json.value.topLevel then current
    else
      var stats := json.value.topLevel[code];
      Some(SelectedService(code, code, stats.operations, stats.examples, CoverageOf(stats), LoadedMethods(stats.names)))
  }

  // ---------------------------------------------------------------------------
  // global totals

  function OperationsOf(s: ServiceRow): int { s.operations }

  function ExamplesOf(s: ServiceRow): int { s.examples }

  function MissingOf(s: ServiceRow): int { s.operations - s.examples }

  /** The number of operations over all rows. */
  function TotalOperations(services: seq<ServiceRow>): int { Sum(services, OperationsOf) }

  /** The number of operations with examples over all rows. */
  function TotalExamples(services: seq<ServiceRow>): int { Sum(services, ExamplesOf) }

  /** The number of rows. */
  function TotalServices(services: seq<ServiceRow>): nat { |services| }

  /** The operations without examples: operations minus examples. */
  function MissingExamples(services: seq<ServiceRow>): int { TotalOperations(services) - TotalExamples(services) }

  /** The missing examples are the sum of each service's missing examples. */
  lemma MissingExamplesPerService(services: seq<ServiceRow>)
    ensures MissingExamples(services) == Sum(services, MissingOf)
  {
    SumDifference(services, OperationsOf, ExamplesOf, MissingOf);
  }

  /** Totals over two lists of services add up. */
  lemma TotalsAppend(a: seq<ServiceRow>, b: seq<ServiceRow>)
    ensures TotalOperations(a + b) == TotalOperations(a) + TotalOperations(b)
    ensures TotalExamples(a + b) == TotalExamples(a) + TotalExamples(b)
    ensures MissingExamples(a + b) == MissingExamples(a) + MissingExamples(b)
  {
    SumAppend(a, b, OperationsOf);
    SumAppend(a, b, ExamplesOf);
  }

  /** With no service claiming more examples than operations, or a negative
      count, the missing examples lie between 0 and the operation total. */
  lemma MissingExamplesBounds(services: seq<ServiceRow>)
    requires forall i :: 0 <= i < |services| ==> 0 <= services[i].examples <= services[i].operations
    ensures 0 <= MissingExamples(services) <= TotalOperations(services)
  {
    SumMonotone(services, ExamplesOf, OperationsOf);
    SumNonNegative(services, ExamplesOf);
  }

  // ---------------------------------------------------------------------------
  // service list

  function RowCoverage(s: ServiceRow): real { s.coveragePercent }

  /** The rows for the chart, sorted by coverage, highest first, on a copy:
      a permutation of the rows. */
  function SortedServices(services: seq<ServiceRow>): (r: seq<ServiceRow>)
    ensures multiset(r) == multiset(services)
    ensures forall i, j :: 0 <= i < j < |r| ==> r[i].coveragePercent >= r[j].coveragePercent
  {
    var r := SortDesc(services, RowCoverage);
    assert SortedDesc(r, RowCoverage);
    r
  }

  /** Rows of equal coverage keep their order in the file. */
  lemma SortedServicesStable(services: seq<ServiceRow>, k: real)
    ensures WithKey(SortedServices(services), RowCoverage, k) == WithKey(services, RowCoverage, k)
  {
    SortDescStable(services, RowCoverage, k);
  }

  /** The bar chart's height: 40 pixels per row, but never below 240 pixels. */
  function BarChartHeight(services: nat): (h: int)
    ensures h >= BarChartMinHeight && h >= services * 40
    ensures h == BarChartMinHeight || h == services * 40
  {
    if services * 40 > BarChartMinHeight then services * 40 else BarChartMinHeight
  }

  // ---------------------------------------------------------------------------
  // operations of the selected service

  function MethodsOf(selected: Option<SelectedService>): seq<Operation> {
    if selected.Some? then selected.value.methods else []
  }

  /** The operations listed for the selection: nothing without a selection;
      otherwise the selected service's operations that pass the missing-only and
      language filters, every one of them, in order. */
  function DisplayedMethods(selected: Option<SelectedService>, showMissingOnly: bool, filterLang: Option<string>): (r: seq<Operation>)
    ensures selected.None? ==> r == []
    ensures IsSubsequence(r, MethodsOf(selected))
    ensures showMissingOnly ==> forall i :: 0 <= i < |r| ==> !r[i].found
    ensures LanguageFilterOn(filterLang) ==> forall i :: 0 <= i < |r| ==> HasLanguage(r[i], filterLang.value)
    ensures forall i :: 0 <= i < |MethodsOf(selected)| ==>
      ((showMissingOnly ==> !MethodsOf(selected)[i].found)
       && (LanguageFilterOn(filterLang) ==> HasLanguage(MethodsOf(selected)[i], filterLang.value)))
      ==> MethodsOf(selected)[i] in r
  {
    ApplyFilters(MethodsOf(selected), showMissingOnly, filterLang)
  }

  /** Every loaded operation is documented, so missing-only shows none of them. */
  lemma MissingOnlyOfLoadedIsEmpty(names: Option<seq<string>>, filterLang: Option<string>)
    ensures ApplyFilters(LoadedMethods(names), true, filterLang) == []
  {
    FilterNone(LoadedMethods(names), MissingOnlyTest(true));
  }

  /** Filtering loaded operations by Kotlin keeps all of them. */
  lemma KotlinFilterKeepsAll(names: Option<seq<string>>)
    ensures ApplyFilters(LoadedMethods(names), false, Some(Kotlin)) == LoadedMethods(names)
  {
    var ms := LoadedMethods(names);
    FilterKeepsAll(ms, MissingOnlyTest(false));
    forall i | 0 <= i < |ms| ensures LanguageTest(Some(Kotlin))(ms[i]) {
      assert Kotlin in [Kotlin];
    }
    FilterKeepsAll(ms, LanguageTest(Some(Kotlin)));
  }

  /** Filtering loaded operations by any other language shows none of them. */
  lemma OtherLanguageFilterIsEmpty(names: Option<seq<string>>, lang: string)
    requires lang != Kotlin && lang != ""
    ensures ApplyFilters(LoadedMethods(names), false, Some(lang)) == []
  {
    var ms := LoadedMethods(names);
    FilterKeepsAll(ms, MissingOnlyTest(false));
    assert lang !in [Kotlin];
    FilterNone(ms, LanguageTest(Some(lang)));
  }

  /** `allLanguages`: the distinct languages of the selected operations. */
  function ServiceLanguages(selected: Option<SelectedService>): (r: seq<string>)
    ensures NoDuplicates(r)
    ensures selected.None? ==> r == []
  {
    AllLanguages(MethodsOf(selected))
  }

  /** The language buttons of a loaded service: Kotlin alone, or none when the
      service has no operation names. */
  lemma LoadedLanguages(names: Option<seq<string>>)
    ensures AllLanguages(LoadedMethods(names)) == if OrEmpty(names) == [] then [] else [Kotlin]
  {
    var ms := LoadedMethods(names);
    var ss := seq(|ms|, i requires 0 <= i < |ms| => LanguageList(ms[i]));
    var langs := LanguagesOf(ms);
    forall k | 0 <= k < |langs| ensures langs[k] == Kotlin {
      FlattenSource(ss, langs[k]);
    }
    DistinctConstant(langs, Kotlin);
    if OrEmpty(names) != [] {
      assert Kotlin in ss[0];
      FlattenContains(ss, 0, Kotlin);
    }
  }

  // ---------------------------------------------------------------------------
  // the page's state

  /** The component's state fields and the handlers that update them. */
  class ModelCoverageDashboard {
    var language: string
    var services: seq<ServiceRow>
    var loading: bool
    var selectedService: Option<SelectedService>
    var showMissingOnly: bool
    var filterLang: Option<string>

    constructor ()
      ensures language == Kotlin && services == [] && loading
      ensures selectedService == None && !showMissingOnly && filterLang == None
    {
      language := Kotlin;
      services := [];
      loading := true;
      selectedService := None;
      showMissingOnly := false;
      filterLang := None;
    }

    /** The start of the reference-file load, which only runs for Kotlin. */
    method BeginLoad()
      modifies this`loading
      ensures language == Kotlin ==> loading
      ensures language != Kotlin ==> loading == old(loading)
    {
      if language == Kotlin {
        loading := true;
      }
    }

    /** The reference file arriving (`None` when it could not be read): a file
        with a `services` member replaces the rows; either way loading ends. */
    method CompleteLoad(json: Option<KotlinRef>)
      modifies this`services, this`loading
      ensures json.Some? && json.value.services.Some? ==> services == ServiceRows(json.value.services.value)
      ensures json.None? || json.value.services.None? ==> services == old(services)
      ensures !loading
    {
      if json.Some? && json.value.services.Some? {
        services := ServiceRows(json.value.services.value);
      }
      loading := false;
    }

    /** The reference file arriving for a clicked service code. */
    method LoadServiceOperations(code: string, json: Option<KotlinRef>)
      modifies this`selectedService
      ensures selectedService == SelectAfterLoad(json, code, old(selectedService))
    {
      selectedService := SelectAfterLoad(json, code, selectedService);
    }

    /** A click on a bar: the bar's service loads; a click on no bar changes nothing. */
    method ClickBar(index: Option<int>, json: Option<KotlinRef>)
      modifies this`selectedService
      ensures var listed := SortedServices(services);
        if index.Some? && 0 <= index.value < |listed|
        then selectedService == SelectAfterLoad(json, listed[index.value].serviceCode, old(selectedService))
        else selectedService == old(selectedService)
    {
      var listed := SortedServices(services);
      if index.Some? && 0 <= index.value < |listed| {
        LoadServiceOperations(listed[index.value].serviceCode, json);
      }
    }

    /** A language button: the active language goes off, any other goes on. */
    method ClickLanguage(lang: string)
      modifies this`filterLang
      ensures filterLang == ToggleLanguage(old(filterLang), lang)
      ensures old(filterLang) == Some(lang) ==> filterLang == None
    {
      filterLang := ToggleLanguage(filterLang, lang);
    }

    /** The found/missing button: flips missing-only and clears the language filter. */
    method ToggleMissingOnly()
      modifies this`showMissingOnly, this`filterLang
      ensures showMissingOnly == !old(showMissingOnly)
      ensures filterLang == None
    {
      showMissingOnly := !showMissingOnly;
      filterLang := None;
    }
  }
}
