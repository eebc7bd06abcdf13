# weathertop2 dashboard logic, in Dafny

This project models the client-side logic of the weathertop2 test and
coverage dashboards and proves properties about it. The dashboards are React
components. The model covers what they compute from the data they are given
and how their handlers change their state; fetching, its error paths and
rendering are left out (see "Left out").

- **AWS Coverage Dashboard** (`Coverage`). It shows global found/missing totals
  over all services. Its service list is searched by name, ignoring case, and
  sorted by coverage. For a clicked service it lists the methods: optionally
  sorted, passed through a missing-only filter and a language filter, with one
  toggle button and one colour per language.
- **AWS Model Code Coverage** (`ModelCoverage`). This is the Kotlin page: one row
  per service of the reference file, totals, the rows sorted by coverage, and
  the operations of a clicked service, all documented in Kotlin.
- **SDK Stats panel** (`Stats`). It holds the totals and the overall pass rate
  of the SDK report, the panel state of the three buttons, and the
  subscription form with its empty-address guard.
- **Language breakdown cards** (`LanguageBreakdown`). One card per language
  row, with defaults for missing counts, a guarded pass rate and a colour
  classification with three thresholds.
- **Test results dashboard** (`TestDashboard`). Summary defaults, the
  pass-rate guard, the flattened breakdown rows and the built-in sample data.
- **Summary card** (`SummaryCard`). The capitalised SDK name in the heading.

The shared modules are:

- `Nullable`: an `Option` type for a JavaScript value that may be absent, plus the `|| 0` and `?? []` defaults. Where `||` or `??` is modelled, `None` stands for `undefined` or `null`; where a destructuring default (`= 0`, `= {}`) is modelled, `None` stands for `undefined` only.
- `Text`: ASCII `toLowerCase`/`toUpperCase` and `includes`.
- `Rates`: exact percentages and half-up rounding to hundredths.
- `Sequences`: `filter`, the stable `sort` by a numeric key, `Array.from(new Set(...))`, `flatMap` and `reduce`.
- `Drilldown`: the method record, the two filters, the language list, the colour-map loop and the two toggles, which both coverage pages share.

Floating-point percentages are modelled as exact `real` values. Under
ECMA-262 (2019 edition and later), `Array.prototype.sort` with the comparator
`key(b) - key(a)` is a stable sort, descending by key. The model is one stable
insertion sort. `Sequences.SortDescUnique` proves that any sorted order with
the same ties is that sort's result. The "found" comparator is modelled as key
1 for found methods and 0 for missing ones.

The state fields of the components whose handlers update them (the two
coverage pages, the SDK Stats panel and the test results dashboard) are a
class. Their handlers are methods with `modifies` clauses. The language
breakdown's `data` and `loading` are set only by its fetch, which is left
out, so that component is modelled by functions of the fetched summary. An asynchronous handler is split into two methods,
one for its start and one for its completion. The fetched content is a
parameter of the completion method, with `None` standing for a failed fetch.

Three facts about the code shape the model:

- There is no staleness guard: the last fetch to complete sets the state,
  even when the service it was for is no longer the selected one.
- The SDK Stats totals (`src/components/Stats.js:70-81`) and the Kotlin totals
  (`src/components/ModelCoverage.js:116-117`) add counts with no default, so
  there the counts are plain integers.
- The Kotlin page reads its service rows from `json.services`
  (`src/components/ModelCoverage.js:33`), but the operations of a clicked
  service from the top level of the same file (`json[serviceCode]`,
  `src/components/ModelCoverage.js:62`). `ModelCoverage.KotlinRef` keeps these
  as two separate parts.

## Model

| member | source | states |
|---|---|---|
| Text.ToLower | src/components/Coverage.js:66 | lower-casing keeps the length, maps each character by itself and leaves no upper-case letter |
| Text.Includes | src/components/Coverage.js:66 | `includes`, scanning the haystack from the left; Text.IncludesIff states what it means |
| Text.IncludesIff | src/components/Coverage.js:66 | `includes` holds exactly when the needle occurs at some position of the haystack |
| Rates.Percentage | src/components/Stats.js:84 | the percentage times the whole equals the part times 100 |
| Rates.PercentageBounds | src/components/LanguageBreakdown.js:27 | a share of a positive whole lies in [0, 100] |
| Rates.HalfUpNearest | src/components/TestDashboard.js:72 | the rounded hundredths are within half a hundredth of the exact percentage |
| Sequences.FilterCommutes | src/components/Coverage.js:53-55 | two filters applied in either order give the same list |
| Sequences.FilterIsSubsequence | src/components/Coverage.js:53-55 | a filter keeps an order-preserving subsequence |
| Sequences.SortDesc | src/components/Coverage.js:45-51 | sorting gives a permutation that is non-increasing in the key |
| Sequences.SortDescStable | src/components/Coverage.js:65-67 | elements with equal keys keep their relative order |
| Sequences.SortDescUnique | src/components/Coverage.js:65-67 | any sorted permutation with the same order of ties equals the sort's result |
| Sequences.SortDescConstantKey | src/components/Coverage.js:49 | a comparator that always returns 0 leaves the list unchanged |
| Sequences.Distinct | src/components/Coverage.js:57-59 | `Array.from(new Set(...))` has no duplicates and exactly the input's elements |
| Sequences.DistinctFirstSeenOrder | src/components/Coverage.js:57-59 | the distinct elements appear in the order of their first occurrence |
| Sequences.FlattenLength | src/components/TestDashboard.js:91 | a flattened list's length is the sum of the inner lengths |
| Sequences.SumAppend | src/components/Coverage.js:38-39 | a `reduce` sum over a concatenation is the sum of the two sums |
| Drilldown.MissingOnlyTest | src/components/Coverage.js:54 | the missing-only test: with the filter on only undocumented methods pass, with it off all pass; Drilldown.ApplyFilters states its effect |
| Drilldown.LanguageTest | src/components/Coverage.js:55 | the language test: with a non-empty language chosen only methods whose list has it pass, otherwise all pass; Drilldown.ApplyFilters states its effect |
| Drilldown.ApplyFilters | src/components/Coverage.js:53-55 | the shown methods are an order-preserving subsequence; a method is kept exactly when it passes missing-only and the language filter |
| Drilldown.FiltersCommute | src/components/Coverage.js:53-55 | applying the language filter first gives the same rows |
| Drilldown.FiltersOffShowAll | src/components/Coverage.js:53-55 | with both filters off every method shows, in order |
| Drilldown.LanguagesOf | src/components/Coverage.js:58 | the languages of all methods in order, an absent list read as empty; Drilldown.AllLanguagesMembers states which languages it holds |
| Drilldown.AllLanguages | src/components/Coverage.js:57-59 | the language buttons have no duplicates |
| Drilldown.AllLanguagesMembers | src/components/Coverage.js:57-59 | a language has a button exactly when some method lists it |
| Drilldown.AllLanguagesFirstSeen | src/components/Coverage.js:57-59 | buttons are in first-seen order over the methods' language lists |
| Drilldown.BuildColorMap | src/components/Coverage.js:60-63 | the `forEach` loop maps exactly the listed languages; a language's colour is the palette entry at its last position mod the palette length |
| Drilldown.LanguageColorMap | src/components/Coverage.js:57-63 | each language button gets the palette entry at its position modulo the palette length, and only the buttons get a colour; the Kotlin page builds the same map with its own palette at `src/components/ModelCoverage.js:129-133` |
| Drilldown.ToggleLanguage | src/components/Coverage.js:242 | clicking the active language clears the filter; any other language becomes active |
| Drilldown.ToggleLanguageTwice | src/components/Coverage.js:242 | two clicks on one button leave the filter active only if it was active |
| Coverage.TotalMethods | src/components/Coverage.js:38 | the sum over the services of `methodCount`, an absent count read as 0; Coverage.TotalsAppend and Coverage.TotalsOfEmpty state its behaviour |
| Coverage.TotalFound | src/components/Coverage.js:39 | the sum over the services of `foundCount`, an absent count read as 0 |
| Coverage.TotalMissing | src/components/Coverage.js:40 | methods minus found; Coverage.TotalMissingPerService and Coverage.TotalMissingBounds state its behaviour |
| Coverage.TotalServices | src/components/Coverage.js:41 | the number of services |
| Coverage.TotalsOfEmpty | src/components/Coverage.js:38-41 | no data gives 0 methods, 0 found, 0 missing, 0 services |
| Coverage.TotalsAppend | src/components/Coverage.js:38-41 | each total over two lists of services is the sum of their totals |
| Coverage.TotalMissingPerService | src/components/Coverage.js:40 | total missing is the per-service sum of `(methodCount \|\| 0) - (foundCount \|\| 0)` |
| Coverage.TotalMissingBounds | src/components/Coverage.js:38-40 | with consistent per-service counts, 0 <= missing <= total methods |
| Coverage.MethodSortKey | src/components/Coverage.js:46-49 | the sort key of a method: 1 or 0 for found under "found", the language count under "languageCount", 0 otherwise; Coverage.SortByFoundPutsFoundFirst, Coverage.SortByLanguageCountDescending and Coverage.SortOtherwiseKeepsOrder state its effect |
| Coverage.SortedMethods | src/components/Coverage.js:45-51 | no selection gives []; otherwise a permutation of the service's methods, sorted by the chosen key |
| Coverage.SortByFoundPutsFoundFirst | src/components/Coverage.js:47 | with "found", no missing method precedes a found one |
| Coverage.SortByLanguageCountDescending | src/components/Coverage.js:48 | with "languageCount", language counts never increase |
| Coverage.SortOtherwiseKeepsOrder | src/components/Coverage.js:49 | any other sortBy keeps the original order |
| Coverage.SortedMethodsStable | src/components/Coverage.js:45-51 | methods with equal sort keys keep their original order |
| Coverage.DisplayedMethods | src/components/Coverage.js:53-55 | a subsequence of the sorted methods, drawn from the selected service, all missing under missing-only and all in the chosen language |
| Coverage.DisplayedMethodsMembers | src/components/Coverage.js:53-55 | a method is displayed exactly when it is the service's and passes both filters |
| Coverage.ServiceLanguages | src/components/Coverage.js:57-59 | no duplicates; empty without a selection |
| Coverage.NameMatches | src/components/Coverage.js:66 | the name search: the name, empty when absent, lower-cased, contains the lower-cased query; Text.IncludesIff and Text.ToLower state its parts |
| Coverage.CoverageKey | src/components/Coverage.js:67 | the sort key of a service, its coverage with an absent value read as 0 |
| Coverage.FilteredServices | src/components/Coverage.js:65-67 | exactly the services whose lower-cased name contains the lower-cased query, as a permutation of those, sorted by `coveragePercent \|\| 0` descending |
| Coverage.EmptyQueryKeepsOrder | src/components/Coverage.js:66 | an empty query keeps every service, in order |
| Coverage.EmptyQueryKeepsAll | src/components/Coverage.js:65-67 | with an empty query the list is a permutation of all services |
| Coverage.FilteredServicesStable | src/components/Coverage.js:67 | services of equal coverage keep their data order |
| Coverage.FilteredServicesIdempotent | src/components/Coverage.js:65-67 | searching the result again with the same query changes nothing |
| Coverage.TwoServicesOutOfOrder | src/components/Coverage.js:67 | a service with lower coverage moves behind the next one |
| Coverage.SortStabilityExample | src/components/Coverage.js:67 | services a, b at equal coverage and c higher sort to c, a, b |
| Coverage.BarChartHeight | src/components/Coverage.js:184-185 | the height is max(n * 50, 400), never below 400 |
| Coverage.FirstWithCode | src/components/Coverage.js:74 | position i holds the code and no earlier position does; Coverage.FindByCode is specified with it |
| Coverage.FindByCode | src/components/Coverage.js:74 | the first service with the code, or none exactly when no service has it |
| Coverage.FindByOwnCode | src/components/Coverage.js:74 | with distinct codes, looking up a service's own code returns that service |
| Coverage.SelectAfterLoad | src/components/Coverage.js:73-86 | failure clears the selection; an unknown code keeps it; otherwise the found service with the loaded operations |
| Coverage.SelectKnownCode | src/components/Coverage.js:74-80 | a known code selects its first service with methods replaced and everything else kept |
| Coverage.CoverageDashboard.constructor | src/components/Coverage.js:17-22 | the initial state: no data, no selection, filters off, empty search |
| Coverage.CoverageDashboard.LoadSummary | src/components/Coverage.js:25-36 | each loaded service gets an empty method list; a failed load changes nothing |
| Coverage.CoverageDashboard.SetServiceFilter | src/components/Coverage.js:167 | the search text becomes the typed text |
| Coverage.CoverageDashboard.LoadServiceOperations | src/components/Coverage.js:69-87 | the selection becomes `SelectAfterLoad` of the current data |
| Coverage.CoverageDashboard.ClickBar | src/components/Coverage.js:191-196 | a click on a listed bar loads that service; any other click changes nothing |
| Coverage.CoverageDashboard.ClickLanguage | src/components/Coverage.js:242 | the language filter toggles |
| Coverage.CoverageDashboard.ToggleMissingOnly | src/components/Coverage.js:261-264 | missing-only flips and the language filter is cleared |
| Coverage.CoverageDashboard.ShownMethods | src/components/Coverage.js:53-55 | the methods table for the current state, Coverage.DisplayedMethods of its fields |
| ModelCoverage.CoverageOf | src/components/ModelCoverage.js:38 | 0 without operations; otherwise examples/operations as an exact percentage |
| ModelCoverage.CoverageOfBounds | src/components/ModelCoverage.js:38 | with 0 <= examples <= operations the coverage lies in [0, 100] |
| ModelCoverage.RowOf | src/components/ModelCoverage.js:33-40 | the row of one service entry: the name as code and display name, its counts, ModelCoverage.CoverageOf of them and its names, an absent list read as empty |
| ModelCoverage.ServiceRows | src/components/ModelCoverage.js:33-40 | one row per entry, in order: name as both name and code, counts copied, `names \|\| []` |
| ModelCoverage.LoadedMethods | src/components/ModelCoverage.js:65-69 | one method per name, in order, each found and in exactly ["Kotlin"] |
| ModelCoverage.LoadedMethodsNames | src/components/ModelCoverage.js:65-69 | reading the names back off the methods gives `stats.names \|\| []` |
| ModelCoverage.SelectAfterLoad | src/components/ModelCoverage.js:55-84 | a failed read or an unknown code keeps the selection; otherwise the top-level entry with its loaded methods |
| ModelCoverage.TotalOperations | src/components/ModelCoverage.js:116 | the sum of the rows' operation counts, with no default; ModelCoverage.TotalsAppend states its behaviour |
| ModelCoverage.TotalExamples | src/components/ModelCoverage.js:117 | the sum of the rows' example counts, with no default |
| ModelCoverage.TotalServices | src/components/ModelCoverage.js:118 | the number of rows |
| ModelCoverage.MissingExamples | src/components/ModelCoverage.js:119 | operations minus examples; ModelCoverage.MissingExamplesPerService and ModelCoverage.MissingExamplesBounds state its behaviour |
| ModelCoverage.MissingExamplesPerService | src/components/ModelCoverage.js:116-119 | missing examples are total operations minus total examples, summed per service |
| ModelCoverage.TotalsAppend | src/components/ModelCoverage.js:116-119 | the totals over two lists of rows add up |
| ModelCoverage.MissingExamplesBounds | src/components/ModelCoverage.js:116-119 | with consistent rows, 0 <= missing <= total operations |
| ModelCoverage.SortedServices | src/components/ModelCoverage.js:121 | a permutation of the rows with non-increasing coverage |
| ModelCoverage.SortedServicesStable | src/components/ModelCoverage.js:121 | rows of equal coverage keep their file order |
| ModelCoverage.BarChartHeight | src/components/ModelCoverage.js:172 | the height is max(n * 40, 240), never below 240 |
| ModelCoverage.MethodsOf | src/components/ModelCoverage.js:124 | the selected service's operations, none without a selection |
| ModelCoverage.DisplayedMethods | src/components/ModelCoverage.js:123-127 | [] without a selection; otherwise an order-preserving subsequence of the operations whose every element passes both filters, and which contains every operation that passes both |
| ModelCoverage.MissingOnlyOfLoadedIsEmpty | src/components/ModelCoverage.js:123-125 | missing-only over loaded operations shows nothing |
| ModelCoverage.KotlinFilterKeepsAll | src/components/ModelCoverage.js:126 | the Kotlin filter keeps every loaded operation |
| ModelCoverage.OtherLanguageFilterIsEmpty | src/components/ModelCoverage.js:126 | any other non-empty language filter shows no loaded operation |
| ModelCoverage.ServiceLanguages | src/components/ModelCoverage.js:129-131 | no duplicates; empty without a selection |
| ModelCoverage.LoadedLanguages | src/components/ModelCoverage.js:129-131 | a loaded service has the single button Kotlin, or none when it has no names |
| ModelCoverage.ModelCoverageDashboard.constructor | src/components/ModelCoverage.js:16-21 | language Kotlin, no rows, loading, nothing selected, filters off |
| ModelCoverage.ModelCoverageDashboard.BeginLoad | src/components/ModelCoverage.js:27-29 | the load starts, setting loading, only for Kotlin |
| ModelCoverage.ModelCoverageDashboard.CompleteLoad | src/components/ModelCoverage.js:30-44 | a file with services replaces the rows; a failure keeps them; loading ends either way |
| ModelCoverage.ModelCoverageDashboard.LoadServiceOperations | src/components/ModelCoverage.js:55-84 | the selection becomes `SelectAfterLoad` |
| ModelCoverage.ModelCoverageDashboard.ClickBar | src/components/ModelCoverage.js:181-185 | a click on a bar loads that row's service; a click on no bar changes nothing |
| ModelCoverage.ModelCoverageDashboard.ClickLanguage | src/components/ModelCoverage.js:217 | the language filter toggles |
| ModelCoverage.ModelCoverageDashboard.ToggleMissingOnly | src/components/ModelCoverage.js:224-227 | missing-only flips and the language filter is cleared |
| Stats.ComputeTotals | src/components/Stats.js:70-85 | the three sums over the rows, no ignored tests, and a pass rate of 0 without tests, otherwise passed/tests as a percentage |
| Stats.TotalsOfEmpty | src/components/Stats.js:70-85 | an empty report gives all-zero totals and rate 0 |
| Stats.TotalsAppend | src/components/Stats.js:70-81 | the totals are additive over concatenation |
| Stats.PassRateBounds | src/components/Stats.js:83-85 | with 0 <= passed <= tests per row, the rate lies in [0, 100] |
| Stats.TotalsAddUp | src/components/Stats.js:70-81 | rows whose passed and failed make up their tests give totals that do too |
| Stats.TwoLanguageExample | src/components/Stats.js:70-85 | 442/432/10 and 500/450/50 total 942/882/60 at 93.63% to two decimals |
| Stats.PanelAfterFetch | src/components/Stats.js:65-104 | failure gives no panel data; the SDK report keeps its rows unchanged with their totals; other reports are shown as fetched |
| Stats.StatsPanel.Valid | src/components/Stats.js:59-96 | nothing is shown while a report loads, and an SDK panel's totals are those of its rows; every handler keeps it |
| Stats.StatsPanel.constructor | src/components/Stats.js:4-13 | the initial panel state |
| Stats.StatsPanel.BeginFetch | src/components/Stats.js:59-63 | title set, data cleared, panel shown, loading; the invariant is kept |
| Stats.StatsPanel.CompleteFetch | src/components/Stats.js:65-107 | panel data from the outcome, loading false on success and failure alike |
| Stats.StatsPanel.HandleSdkStatsClick | src/components/Stats.js:111-112 | starts the fetch titled "SDK Stats" |
| Stats.StatsPanel.HandleNoTestsClick | src/components/Stats.js:114-115 | starts the fetch titled "No SDK Tests" |
| Stats.StatsPanel.HandleSubClick | src/components/Stats.js:117-123 | title "Subscribe", data, email and message cleared, panel shown |
| Stats.StatsPanel.SetEmail | src/components/Stats.js:229 | the address becomes the typed text |
| Stats.StatsPanel.HandleSubscribeSubmit | src/components/Stats.js:126-139 | an empty address sets the warning, sends nothing and leaves `subscribing`; otherwise a request for the address goes out with `subscribing` set and the message cleared |
| Stats.StatsPanel.CompleteSubscribe | src/components/Stats.js:140-153 | an answer shows its text or the default confirmation and clears the address; a failure shows the failure message; `subscribing` ends |
| Stats.StatsPanel.ClosePanel | src/components/Stats.js:352 | the panel is hidden |
| LanguageBreakdown.PassRateStyle | src/components/LanguageBreakdown.js:9-13 | green exactly from 90, orange exactly in [80, 90), red exactly below 80 |
| LanguageBreakdown.PassRateStyleMonotone | src/components/LanguageBreakdown.js:9-13 | a higher rate never gets a more severe style |
| LanguageBreakdown.PassRateStyleOneOfThree | src/components/LanguageBreakdown.js:9-13 | every rate gets one of the three styles |
| LanguageBreakdown.CardOf | src/components/LanguageBreakdown.js:24-34 | name is the language, total is `tests ?? 0`, and the rate is 0 without tests, otherwise passed/total as a percentage |
| LanguageBreakdown.CardRateBounds | src/components/LanguageBreakdown.js:27 | with passed <= total, a card's rate lies in [0, 100] |
| LanguageBreakdown.Cards | src/components/LanguageBreakdown.js:22-34 | a missing summary gives no cards; otherwise one card per row, in order |
| LanguageBreakdown.CardStyles | src/components/LanguageBreakdown.js:89 | each card's style is the classification of its rate |
| LanguageBreakdown.NoTestsIsRed | src/components/LanguageBreakdown.js:27 | a card without tests is red |
| LanguageBreakdown.CardClickTarget | src/components/LanguageBreakdown.js:83 | the click passes the name lower-cased, same length |
| TestDashboard.ResolveSummary | src/components/TestDashboard.js:3-9 | an `undefined` summary or field defaults to 0, or '—' for the duration |
| TestDashboard.PassRate | src/components/TestDashboard.js:11 | 0 when total <= 0; otherwise passed/total as a percentage |
| TestDashboard.MissingSummaryShowsZero | src/components/TestDashboard.js:3-11 | a missing summary shows rate 0 and duration '—' |
| TestDashboard.PassRateBounds | src/components/TestDashboard.js:11 | with 0 <= passed <= total, the rate lies in [0, 100] |
| TestDashboard.AllBreakdowns | src/components/TestDashboard.js:91 | the breakdown rows of all languages concatenated in key order; TestDashboard.AllBreakdownsLength and TestDashboard.SampleBreakdowns state its result |
| TestDashboard.AllBreakdownsLength | src/components/TestDashboard.js:91 | the flattened rows number the sum of the languages' row counts |
| TestDashboard.SampleBreakdowns | src/components/TestDashboard.js:66-91 | the sample data flattens to its three rows in key order |
| TestDashboard.SampleDataConsistent | src/components/TestDashboard.js:66-88 | in the sample data passed + failed = total, and each stored rate is the exact rate rounded half up to hundredths |
| TestDashboard.Lookup | src/components/TestDashboard.js:116 | the language with the key, or none exactly when no language has it |
| TestDashboard.PropsOf | src/components/TestDashboard.js:116 | the summary prop passed for a looked-up language: its four figures, or `undefined` for an unknown key |
| TestDashboard.ShownSummary | src/components/TestDashboard.js:115-118 | a known language shows its own figures; an unknown key shows the defaults |
| TestDashboard.BreakdownViewOf | src/components/TestDashboard.js:49-60 | the fallback text shows exactly when there are no rows |
| TestDashboard.DashboardApp.constructor | src/components/TestDashboard.js:94 | Java is picked initially |
| TestDashboard.DashboardApp.HandleChange | src/components/TestDashboard.js:96 | the picked language becomes the chosen value |
| TestDashboard.DashboardApp.ShownSummary | src/components/TestDashboard.js:115-118 | the summary shown for the current choice; TestDashboard.ShownSummary states what it is for each key |
| TestDashboard.InitialSummaryIsJava | src/components/TestDashboard.js:94 | the initial page shows Java's 800/799/1 run |
| SummaryCard.DisplayName | src/components/SummaryCard.js:15-17 | none for a missing or empty name; otherwise the same length with the first character upper-cased and the rest unchanged |
| SummaryCard.DisplayNameIdempotent | src/components/SummaryCard.js:16 | capitalising a display name again changes nothing |
| SummaryCard.Heading | src/components/SummaryCard.js:22 | the display name followed by ' Test Summary Stats', or 'Test Summary Stats' alone without a name |
| SummaryCard.HeadingEndsWithDefault | src/components/SummaryCard.js:22 | every heading ends with 'Test Summary Stats' |
| SummaryCard.ServicesShown | src/components/SummaryCard.js:12 | an `undefined` `services` prop shows 0; any other value shows as given |

## Left out

- Fetching is not modelled: the network, JSON parsing, `async`/`await` ordering and `console` logging. What a fetch returns is a parameter, with `None` for a failure.
- A response that arrives late is not modelled either. The last completion to run sets the state, as in the code.
- Rendering is not modelled: React hooks as a framework, styles, charts, modals, tooltips, hover state and scrolling. Colours are modelled only as the palette index mod 12.
- `toFixed` formatting and IEEE-754 division are not modelled; rates are exact reals.
- A `null` prop under a destructuring default is not modelled. The default applies only to `undefined`: `services: null` in `src/components/SummaryCard.js:12` shows null, `summary: null` in `src/components/TestDashboard.js:3-9` throws, and a `null` count there shows empty. In SummaryCard.ServicesShown and TestDashboard.ResolveSummary, `None` is `undefined`.
- LanguageBreakdown.CardStyles: classifies the exact rate. `src/components/LanguageBreakdown.js:89` classifies the rate after rounding to two decimals, so an exact rate such as 89.996 is orange in the model but rounds to 90.00 and shows green.
- `toLowerCase` and `toUpperCase` are ASCII-only in the model; Unicode case mapping is not modelled.
- JavaScript type errors on malformed data are not modelled. Examples are `operations` missing from a coverage file, null `languages` under the Kotlin page's language filter (which uses `includes` without `?.`), and a summary that is not a list. Each becomes a value of the model's types.
- Stats.ComputeTotals: counts are integers, so the `NaN` the code produces for a row missing a count is not modelled.
- ModelCoverage.SelectAfterLoad: a lookup of the code "services" at the top level finds the services object itself. That case is not modelled.
- Stats.StatsPanel.HandleSubscribeSubmit returns the address the request is for. Building `SUBSCRIBE_URL_BASE + encodeURIComponent(email)` is not modelled, because it is a foreign call.
- `Number(...)` on string counts in `src/components/LanguageBreakdown.js:25-26` is not modelled; counts are integers.
- `src/components/ScheduleTaskForm.js`, `src/components/Management.js`, `src/components/InspectFargateTask.js`, `src/components/RunRateModal.js`, `src/components/ExecutionControl.js`, `src/components/GettingStarted.js`, `src/components/TestConfig.js` and `src/App.js` are not part of this model: they hold HTTP calls, modals, fixed display data, static markup and page navigation, with no logic to state.
