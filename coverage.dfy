/** The AWS Coverage Dashboard: global found/missing totals over every
    service, the service list filtered by a search box and sorted by coverage,
    and, for the service whose bar was clicked, its methods with optional
    sorting, the missing-only and language filters and the language colours. */
module Coverage {
  import opened Nullable
  import opened Text
  import opened Sequences
  import opened Drilldown

  /** The twelve colours the language buttons and badges cycle through. */
  const LanguageColors: seq<string> := [
    "#FF6384", "#36A2EB", "#FFCE56", "#4BC0C0", "#9966FF",
    "#FF9F40", "#E7E9ED", "#8B0000", "#00FF00", "#FFD700",
    "#FF1493", "#1E90FF"
  ]

  /** The smallest height of the coverage bar chart, in pixels. */
  const BarChartMinHeight: int := 400

  /** One service record of the summary file, together with the methods loaded
      for it (none until its coverage file has been read). */
  datatype Service = Service(
    serviceCode: string,
    serviceName: Option<string>,
    methodCount: Option<int>,
    foundCount: Option<int>,
    coveragePercent: Option<real>,
    methods: seq<Operation>)

  // ---------------------------------------------------------------------------
  // global totals

  /** `s.methodCount || 0` */
  function MethodCountOf(s: Service): int { OrZero(s.methodCount) }

  /** `s.foundCount || 0` */
  function FoundCountOf(s: Service): int { OrZero(s.foundCount) }

  /** The methods of one service that have no example. */
  function MissingCountOf(s: Service): int { MethodCountOf(s) - FoundCountOf(s) }

  /** The number of methods over all services, an absent count read as 0. */
  function TotalMethods(data: seq<Service>): int { Sum(data, MethodCountOf) }

  /** The number of documented methods over all services, an absent count read as 0. */
  function TotalFound(data: seq<Service>): int { Sum(data, FoundCountOf) }

  /** The undocumented methods: methods minus found. */
  function TotalMissing(data: seq<Service>): int { TotalMethods(data) - TotalFound(data) }

  /** `data.length` */
  function TotalServices(data: seq<Service>): nat { |data| }

  /** No data: no services, no methods, nothing found, nothing missing. */
  lemma TotalsOfEmpty()
    ensures TotalMethods([]) == 0 && TotalFound([]) == 0
    ensures TotalMissing([]) == 0 && TotalServices([]) == 0
  {
  }

  /** Each total of two lists of services is the sum of their totals. */
  lemma TotalsAppend(a: seq<Service>, b: seq<Service>)
    ensures TotalMethods(a + b) == TotalMethods(a) + TotalMethods(b)
    ensures TotalFound(a + b) == TotalFound(a) + TotalFound(b)
    ensures TotalMissing(a + b) == TotalMissing(a) + TotalMissing(b)
    ensures TotalServices(a + b) == TotalServices(a) + TotalServices(b)
  {
    SumAppend(a, b, MethodCountOf);
    SumAppend(a, b, FoundCountOf);
  }

  /** The missing total is the sum, over services, of each service's missing methods. */
  lemma TotalMissingPerService(data: seq<Service>)
    ensures TotalMissing(data) == Sum(data, MissingCountOf)
  {
    SumDifference(data, MethodCountOf, FoundCountOf, MissingCountOf);
  }

  /** When no service claims more found methods than it has, or a negative
      count, the missing total lies between 0 and the method total. */
  lemma TotalMissingBounds(data: seq<Service>)
    requires forall i :: 0 <= i < |data| ==> 0 <= FoundCountOf(data[i]) <= MethodCountOf(data[i])
    ensures 0 <= TotalMissing(data) <= TotalMethods(data)
  {
    SumMonotone(data, FoundCountOf, MethodCountOf);
    SumNonNegative(data, FoundCountOf);
  }

  // ---------------------------------------------------------------------------
  // methods of the selected service

  /** The key the comparator of `sortedMethods` orders by, descending:
      with "found", found methods (key 1) before missing ones (key 0); with
      "languageCount", `m.languages?.length || 0`; otherwise every comparison
      returns 0. */
  function MethodSortKey(sortBy: Option<string>): Operation -> real {
    if sortBy == Some("found") then
      (m: Operation) => if m.found then 1.0 else 0.0
    else if sortBy == Some("languageCount") then
      (m: Operation) => |LanguageList(m)| as real
    else
      (m: Operation) => 0.0
  }

  /** `sortedMethods`: nothing without a selected service; otherwise a sorted
      copy (a permutation) of the service's methods. */
  function SortedMethods(selected: Option<Service>, sortBy: Option<string>): (r: seq<Operation>)
    ensures selected.None? ==> r == []
    ensures selected.Some? ==> multiset(r) == multiset(selected.value.methods)
    ensures SortedDesc(r, MethodSortKey(sortBy))
  {
    if selected.Some? then SortDesc(selected.value.methods, MethodSortKey(sortBy)) else []
  }

  /** Sorted by "found", every found method comes before every missing one. */
  lemma SortByFoundPutsFoundFirst(selected: Option<Service>)
    ensures var r := SortedMethods(selected, Some("found"));
      forall i, j :: 0 <= i < j < |r| && r[j].found ==> r[i].found
  {
    var r := SortedMethods(selected, Some("found"));
    var key := MethodSortKey(Some("found"));
    forall i, j | 0 <= i < j < |r| && r[j].found ensures r[i].found {
      assert key(r[i]) >= key(r[j]);
    }
  }

  /** Sorted by "languageCount", the language counts never increase. */
  lemma SortByLanguageCountDescending(selected: Option<Service>)
    ensures var r := SortedMethods(selected, Some("languageCount"));
      forall i, j :: 0 <= i < j < |r| ==> |LanguageList(r[i])| >= |LanguageList(r[j])|
  {
    var r := SortedMethods(selected, Some("languageCount"));
    var key := MethodSortKey(Some("languageCount"));
    forall i, j | 0 <= i < j < |r| ensures |LanguageList(r[i])| >= |LanguageList(r[j])| {
      assert key(r[i]) >= key(r[j]);
    }
  }

  /** With any other `sortBy` (the dashboard never sets one) the methods keep
      their original order. */
  lemma SortOtherwiseKeepsOrder(svc: Service, sortBy: Option<string>)
    requires sortBy != Some("found") && sortBy != Some("languageCount")
    ensures SortedMethods(Some(svc), sortBy) == svc.methods
  {
    SortDescConstantKey(svc.methods, MethodSortKey(sortBy), 0.0);
  }

  /** Methods that compare equal keep their original relative order. */
  lemma SortedMethodsStable(svc: Service, sortBy: Option<string>, k: real)
    ensures WithKey(SortedMethods(Some(svc), sortBy), MethodSortKey(sortBy), k)
         == WithKey(svc.methods, MethodSortKey(sortBy), k)
  {
    SortDescStable(svc.methods, MethodSortKey(sortBy), k);
  }

  /** `displayedMethods`: the sorted methods through the missing-only filter and
      then the language filter; an order-preserving selection of the sorted
      list, drawn from the selected service's methods. */
  function DisplayedMethods(selected: Option<Service>, sortBy: Option<string>, showMissingOnly: bool, filterLang: Option<string>): (r: seq<Operation>)
    ensures IsSubsequence(r, SortedMethods(selected, sortBy))
    ensures selected.None? ==> r == []
    ensures forall i :: 0 <= i < |r| ==> selected.Some? && r[i] in selected.value.methods
    ensures showMissingOnly ==> forall i :: 0 <= i < |r| ==> !r[i].found
    ensures LanguageFilterOn(filterLang) ==> forall i :: 0 <= i < |r| ==> HasLanguage(r[i], filterLang.value)
  {
    var sorted := SortedMethods(selected, sortBy);
    var r := ApplyFilters(sorted, showMissingOnly, filterLang);
    assert forall i :: 0 <= i < |r| ==> r[i] in multiset(sorted);
    r
  }

  /** A method is displayed exactly when it passes both filters. */
  lemma DisplayedMethodsMembers(selected: Option<Service>, sortBy: Option<string>, showMissingOnly: bool, filterLang: Option<string>, m: Operation)
    requires selected.Some?
    ensures m in DisplayedMethods(selected, sortBy, showMissingOnly, filterLang) <==>
      m in selected.value.methods && (showMissingOnly ==> !m.found)
      && (LanguageFilterOn(filterLang) ==> HasLanguage(m, filterLang.value))
  {
    var sorted := SortedMethods(selected, sortBy);
    assert m in sorted <==> m in multiset(sorted);
    var r := ApplyFilters(sorted, showMissingOnly, filterLang);
    if m in sorted && (showMissingOnly ==> !m.found) && (LanguageFilterOn(filterLang) ==> HasLanguage(m, filterLang.value)) {
      var i :| 0 <= i < |sorted| && sorted[i] == m;
    }
  }

  /** `allLanguages`: the distinct languages of the selected service's methods, first-seen order. */
  function ServiceLanguages(selected: Option<Service>): (r: seq<string>)
    ensures NoDuplicates(r)
    ensures selected.None? ==> r == []
  {
    if selected.Some? then AllLanguages(selected.value.methods) else []
  }

  // ---------------------------------------------------------------------------
  // service list

  /** The search: the service's name (empty when absent) contains the query, ignoring case. */
  predicate NameMatches(s: Service, query: string) {
    Includes(ToLower(OrEmpty(s.serviceName)), ToLower(query))
  }

  function NameTest(query: string): Service -> bool {
    (s: Service) => NameMatches(s, query)
  }

  /** `s.coveragePercent || 0` */
  function CoverageKey(s: Service): real { OrZeroReal(s.coveragePercent) }

  /** `filteredServices`: the services whose name contains the query, ignoring
      case, sorted by coverage, highest first. */
  function FilteredServices(data: seq<Service>, query: string): (r: seq<Service>)
    ensures multiset(r) == multiset(Filter(data, NameTest(query)))
    ensures forall i :: 0 <= i < |r| ==> r[i] in data && NameMatches(r[i], query)
    ensures forall i :: 0 <= i < |data| && NameMatches(data[i], query) ==> data[i] in r
    ensures SortedDesc(r, CoverageKey)
  {
    var kept := Filter(data, NameTest(query));
    var r := SortDesc(kept, CoverageKey);
    PermutationMembers(r, kept);
    r
  }

  /** An empty search keeps every service: the list is a permutation of the data. */
  lemma EmptyQueryKeepsAll(data: seq<Service>)
    ensures multiset(FilteredServices(data, "")) == multiset(data)
  {
    EmptyQueryKeepsOrder(data);
  }

  /** An empty search keeps every service in data order before sorting. */
  lemma EmptyQueryKeepsOrder(data: seq<Service>)
    ensures Filter(data, NameTest("")) == data
  {
    forall i | 0 <= i < |data| ensures NameTest("")(data[i]) {
      IncludesEmpty(ToLower(OrEmpty(data[i].serviceName)));
    }
    FilterKeepsAll(data, NameTest(""));
  }

  /** Services of equal coverage keep the order they had in the data. */
  lemma FilteredServicesStable(data: seq<Service>, query: string, k: real)
    ensures WithKey(FilteredServices(data, query), CoverageKey, k)
         == WithKey(Filter(data, NameTest(query)), CoverageKey, k)
  {
    SortDescStable(Filter(data, NameTest(query)), CoverageKey, k);
  }

  /** Searching the searched list again with the same query changes nothing. */
  lemma FilteredServicesIdempotent(data: seq<Service>, query: string)
    ensures FilteredServices(FilteredServices(data, query), query) == FilteredServices(data, query)
  {
    var r := FilteredServices(data, query);
    FilterKeepsAll(r, NameTest(query));
    SortDescOfSorted(r, CoverageKey);
  }

  /** A service with less coverage than the one after it moves behind it. */
  lemma TwoServicesOutOfOrder(b: Service, c: Service)
    requires CoverageKey(b) < CoverageKey(c)
    ensures SortDesc([b, c], CoverageKey) == [c, b]
  {
    SortDescCons(c, [], CoverageKey);
    InsertDescFront(c, [], CoverageKey);
    SortDescCons(b, [c], CoverageKey);
    InsertDescPast(b, [c], CoverageKey);
    InsertDescFront(b, [], CoverageKey);
  }

  /** Ties in coverage keep the data order: two services at the same coverage
      followed by one with more come out as the third, then the first two in
      their original order. */
  lemma SortStabilityExample(a: Service, b: Service, c: Service)
    requires CoverageKey(a) == CoverageKey(b) < CoverageKey(c)
    ensures SortDesc([a, b, c], CoverageKey) == [c, a, b]
  {
    TwoServicesOutOfOrder(b, c);
    SortDescCons(a, [b, c], CoverageKey);
    assert [a] + [b, c] == [a, b, c];
    InsertDescPast(a, [c, b], CoverageKey);
    assert [c, b][1..] == [b];
    InsertDescFront(a, [b], CoverageKey);
  }

  /** The bar chart's height: 50 pixels per listed service, but never below
      400 pixels. */
  function BarChartHeight(services: nat): (h: int)
    ensures h >= BarChartMinHeight && h >= services * 50
    ensures h == BarChartMinHeight || h == services * 50
  {
    if services * 50 > BarChartMinHeight then services * 50 else BarChartMinHeight
  }

  // ---------------------------------------------------------------------------
  // selecting a service

  /** `i` is the position of the first service with the code. */
  predicate FirstWithCode(data: seq<Service>, code: string, i: int) {
    0 <= i < |data| && data[i].serviceCode == code
    && forall j :: 0 <= j < i ==> data[j].serviceCode != code
  }

  /** The first service with the code, or nothing when no service has it. */
  function FindByCode(data: seq<Service>, code: string): (r: Option<Service>)
    ensures r.None? <==> forall i :: 0 <= i < |data| ==> data[i].serviceCode != code
    ensures r.Some? ==> exists i :: FirstWithCode(data, code, i) && data[i] == r.value
  {
    if data == [] then None
    else if data[0].serviceCode == code then
      assert FirstWithCode(data, code, 0);
      Some(data[0])
    else
      var r := FindByCode(data[1..], code);
      assert r.Some? ==> exists i :: FirstWithCode(data, code, i) && data[i] == r.value by {
        if r.Some? {
          var i :| FirstWithCode(data[1..], code, i) && data[1..][i] == r.value;
          assert forall j :: 1 <= j < i + 1 ==> data[j] == data[1..][j - 1];
          assert FirstWithCode(data, code, i + 1);
        }
      }
      r
  }

  /** With distinct service codes, looking up a service by its own code gives that service. */
  lemma FindByOwnCode(data: seq<Service>, i: nat)
    requires i < |data|
    requires forall j, k :: 0 <= j < k < |data| ==> data[j].serviceCode != data[k].serviceCode
    ensures FindByCode(data, data[i].serviceCode) == Some(data[i])
  {
    var r := FindByCode(data, data[i].serviceCode);
    var k :| FirstWithCode(data, data[i].serviceCode, k) && data[k] == r.value;
    assert k == i;
  }

  /** What `loadServiceOperations` leaves selected once the coverage file has
      been fetched (`operations`), or has failed (`None`): on failure nothing; on
      success the first service with the code, its methods replaced by the
      file's operations; with no such service, the previous selection. */
  function SelectAfterLoad(data: seq<Service>, code: string, operations: Option<seq<Operation>>, current: Option<Service>): (r: Option<Service>)
    ensures operations.None? ==> r.None?
    ensures operations.Some? && (forall i :: 0 <= i < |data| ==> data[i].serviceCode != code) ==> r == current
    ensures operations.Some? && r != current ==> r.Some? && r.value.serviceCode == code && r.value.methods == operations.value
  {
    if operations.None? then None
    else
      match FindByCode(data, code)
      case None => current
      case Some(svc) => Some(svc.(methods := operations.value))
  }

  /** A known code selects the first service with that code, with its name and
      counts kept and the loaded operations as its methods. */
  lemma SelectKnownCode(data: seq<Service>, i: nat, operations: seq<Operation>, current: Option<Service>)
    requires i < |data|
    requires forall j :: 0 <= j < i ==> data[j].serviceCode != data[i].serviceCode
    ensures SelectAfterLoad(data, data[i].serviceCode, Some(operations), current) == Some(data[i].(methods := operations))
  {
    var r := FindByCode(data, data[i].serviceCode);
    var k :| FirstWithCode(data, data[i].serviceCode, k) && data[k] == r.value;
    assert k == i;
  }

  // ---------------------------------------------------------------------------
  // the dashboard's state

  /** The component's state fields and the handlers that update them. */
  class CoverageDashboard {
    var data: seq<Service>
    var selectedService: Option<Service>
    var filterLang: Option<string>
    var sortBy: Option<string>
    var showMissingOnly: bool
    var serviceFilter: string

    constructor ()
      ensures data == [] && selectedService == None && filterLang == None
      ensures sortBy == None && !showMissingOnly && serviceFilter == ""
    {
      data := [];
      selectedService := None;
      filterLang := None;
      sortBy := None;
      showMissingOnly := false;
      serviceFilter := "";
    }

    /** The summary file arriving (`None` when it could not be read): each
        service is kept with an empty method list. */
    method LoadSummary(services: Option<seq<Service>>)
      modifies this`data
      ensures services.None? ==> data == old(data)
      ensures services.Some? ==> |data| == |services.value|
      ensures services.Some? ==> forall i :: 0 <= i < |data| ==> data[i] == services.value[i].(methods := [])
    {
      if services.Some? {
        data := seq(|services.value|, i requires 0 <= i < |services.value| => services.value[i].(methods := []));
      }
    }

    /** Typing in the search box. */
    method SetServiceFilter(query: string)
      modifies this`serviceFilter
      ensures serviceFilter == query
    {
      serviceFilter := query;
    }

    /** The coverage file of `code` arriving (or failing). */
    method LoadServiceOperations(code: string, operations: Option<seq<Operation>>)
      modifies this`selectedService
      ensures selectedService == SelectAfterLoad(data, code, operations, old(selectedService))
    {
      selectedService := SelectAfterLoad(data, code, operations, selectedService);
    }

    /** A click on the bar chart: the bar under the mouse, if any, loads its
        service; a click that hits no listed bar changes nothing. */
    method ClickBar(index: Option<int>, operations: Option<seq<Operation>>)
      modifies this`selectedService
      ensures var listed := FilteredServices(data, serviceFilter);
        if index.Some? && 0 <= index.value < |listed|
        then selectedService == SelectAfterLoad(data, listed[index.value].serviceCode, operations, old(selectedService))
        else selectedService == old(selectedService)
    {
      var listed := FilteredServices(data, serviceFilter);
      if index.Some? && 0 <= index.value < |listed| {
        LoadServiceOperations(listed[index.value].serviceCode, operations);
      }
    }

    /** A language button: the active language goes off, any other goes on. */
    method ClickLanguage(lang: string)
      modifies this`filterLang
      ensures filterLang == ToggleLanguage(old(filterLang), lang)
      ensures old(filterLang) == Some(lang) ==> filterLang == None
    {
      filterLang := ToggleLanguage(filterLang, lang);
    }

    /** The found/missing button: flips missing-only and always clears the language filter. */
    method ToggleMissingOnly()
      modifies this`showMissingOnly, this`filterLang
      ensures showMissingOnly == !old(showMissingOnly)
      ensures filterLang == None
    {
      showMissingOnly := !showMissingOnly;
      filterLang := None;
    }

    /** The rows of the methods table for the current state. */
    function ShownMethods(): seq<Operation>
      reads this
    {
      DisplayedMethods(selectedService, sortBy, showMissingOnly, filterLang)
    }
  }
}
